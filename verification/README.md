# aiokpl in Dafny

A model of aiokpl, a Kinesis producer in Python, with proofs about it. The
pieces are modelled one by one and then joined into one transition system:

- the aggregated-record codec: `Wire`, `Aggregation` (what bytes mean),
  `AggregationCode` (the encoder and decoder loops), `Layout` (the format byte by
  byte), `RoundTrip`, `DecoderMeaning`, `Acceptance` (exactly what the decoder
  accepts), `SizeBound`;
- the deadline-driven reducer and its containers: `Sorting`, `ReducerSpec`,
  `ReducerCode` (the class), `ReducerRuns`, `Batches`, `Collector`, `Sums` and
  `Flushing` (when one flush is enough);
- rate limiting: `TokenBucket`, `Limiter`, `LimiterCode`;
- the shard map: `ShardMap`, `Listings` (what a listing describes and what is read
  from it), `ShardMapCode`, `ShardMapRuns`;
- sending and retrying: `Hashing`, `Requests`, `Retrier`, `RetrierCode`;
- the producer: `Pipeline` (the transition system), `Totals` and
  `Conservation` (no step loses a record), `PipelineRuns`, `Routing` and
  `RoutingRuns` (what holds of records in flight), `RateRuns` (the rate of every
  shard), `ByteRuns` (sizes and limits in bytes sent), `Provenance` (every attempt
  and result goes back to an answer), `Drainability` and `Progress` (every run can finish, and does if it keeps
  moving), `Resharding` (what the shard map learns from answers), `Scenarios` (runs
  that surprise), `ProducerCode` (the accounting and the outcomes);
- the rolling metrics window: `Metrics`, `MetricsCode`.

Where the source updates something in place the model has a class or a loop,
proved equal to a specification function; the theorems are about those
functions, over every input, every run or every reachable state. Clock readings
are parameters and real numbers; every body that runs under a lock is one step;
a timer is an identified token. MD5 and UTF-8 are functions given to the model,
of which only two laws are used: a digest has 16 bytes, and decoding an encoded
text gives it back.

Where the code turns out not to do what its documentation or a reader expects,
the model follows the code, shows a run, and says exactly when the expectation
holds:

- the documented table says that a success from the child of a split shard is
  accepted and refreshes the map. The code reports the child, and the map ignores
  shards it does not know: the records are retried as wrong shard, and the map
  stays as it was (`Scenarios.SplitIsNotNoticed`). A report refreshes
  the map if and only if the map knows the shard already, was not installed since
  and is not refreshing (`Resharding.ReportRefreshesIff`); a diverted record is
  accepted if and only if the map knows the actual shard with a range that holds
  its key (`Resharding.DivertedAcceptedIff`). In every run in which the service
  tells the truth neither ever happens (`Resharding.ReshardIsNeverNoticed`), and
  the map of a stream is installed exactly once (`Resharding.InstalledOnce`);
- the reducer for records without a predicted shard is described as
  single-record mode, but has the same limits as every other one. If a listing
  leaves two keys unowned, records from the two ends of the hash space can be sent
  in one batch, and any success is accepted for both
  (`Scenarios.MixedBatchIsAcceptedAnywhere`). Over all runs every batch without a
  shard is one record if and only if batches of two are impossible altogether
  (`Scenarios.SingleRecordModeIff`). A record is left without a shard if and only
  if the map is refreshing again or its list ends before the key
  (`Resharding.NoPredictionIff`); with a service that tells the truth there is no
  such record (`Resharding.EveryBatchHasAShard`). For batches with a shard a record
  is accepted only from a shard whose range holds it
  (`RoutingRuns.AcceptedIsOnItsShard`);
- one `flush` of a reducer may leave records behind
  (`Flushing.OneFlushMayLeaveItems`); it empties the buffer if and only if the
  buffer is within both limits or a single item (`Flushing.AggregatorFlushIff`,
  `Flushing.CollectorFlushIff`);
- a batch that expires in the limiter is meant to finish as expired; a record
  whose age is exactly the TTL goes round again instead (`Scenarios.RetriedAtTtl`),
  and only such a record does (`RoutingRuns.ExpiredBatchesAreOld`);
- a shard id that came back after it was forgotten would lose its range at the
  next clean-up (`ShardMapRuns.ReturningShardIsDropped`); every open shard keeps
  answering with its range if and only if none comes back
  (`ShardMapRuns.OpenAnsweredIff`);
- the first backoff sleep respects the maximum only if the minimum does
  (`ShardMapRuns.FirstSleepIff`);
- varints are documented as 64 bits wide, but ten bytes carry 70, so the codec
  round trip holds up to lengths below 2^70 and fails with an error beyond
  (`RoundTrip.CodecRoundTrip`).

## Model

| member | source | states |
|---|---|---|
| `PipelineRuns.RunConserves` | aiokpl/producer.py:183-205 | In every reachable state, under any interleaving and any answers: every accepted record is pending on its own stream or finished, never both, and no id is used twice; the (stream, id) pairs found in all stages and parcels are the pending ones, each once; outstanding = pending + calls still starting; free permits + outstanding = max_outstanding_records |
| `PipelineRuns.StepKeeps` | aiokpl/producer.py:250-278 | Every step of the wiring keeps the invariant of `RunConserves`: registering, opening a stage, acting at a place, handing a parcel on, shard-map events |
| `PipelineRuns.EachPendingRecordIsSomewhere` | aiokpl/producer.py:250-278 | A record pending on a stream is at exactly one place of that stream and there once; a finished one is nowhere |
| `PipelineRuns.AcceptedIff` | aiokpl/producer.py:183-205 | With a permit, a record is accepted if and only if it names a partition key, the stream's shard map has been ready and its hash key is well formed; it is then pending as given, due record_max_buffered_time later and never attempted; if only the hash key is malformed the permit is given back |
| `PipelineRuns.PermitsComeBack` | aiokpl/producer.py:269-275 | Outstanding stays within 0 and the maximum, and all permits are free exactly when nothing is pending or starting |
| `PipelineRuns.StepSetsOne` | aiokpl/producer.py:269-275 | One step sets at most one outcome, that of a record pending on the finishing stream, which had none; a registered record is counted down only when its outcome is set, so the lookup in the stream's own dictionary never misses |
| `PipelineRuns.OutcomesAreFinal` | aiokpl/outcome.py:37-49 | An outcome once set keeps its value for the rest of the run |
| `Conservation.ActConserves` | aiokpl/producer.py:354-378 | Whatever happens at one place, the (stream, id) pairs there afterwards, those sent off and the finished one are together the pairs before |
| `Conservation.HandConserves` | aiokpl/producer.py:250-278 | A parcel entering its stage: nothing is lost and nothing finishes |
| `Conservation.ReducerMoves` | aiokpl/reducer.py:94-125 | Adding, flushing or firing moves ids between buffer and closed batch without changing them |
| `Conservation.QueueingConserves` | aiokpl/limiter.py:99-145 | Draining and forced draining split the queue's ids into kept, admitted and expired |
| `Conservation.HandlingConserves` | aiokpl/retrier.py:129-163 | Classifying and settling account for every record of an answer |
| `Conservation.AnsweredIds` | aiokpl/sender.py:138-184 | Whatever PutRecords returns or raises, the outcome to handle holds exactly the records of the request |
| `RoutingRuns.RunIsGood` | aiokpl/producer.py:250-278 | In every reachable state all records in flight are as accepted by their stream, hash as their keys say, have failed attempts only, are due record_max_buffered_time after arrival if new, and were last retried in the past and within their TTL; batches are non-empty, within the aggregation limits unless one record and, when the service's lists tile the hash space, shard-pure; requests are within the collection limits unless one batch; queued batches expire no earlier than TTL after their records arrived and no later than TTL from now; timers are armed; every stage is unique under its key |
| `RoutingRuns.RecordsAreGenuine` | aiokpl/aggregator.py:65-80 | Wherever a record is and however often it was retried, it is the one its stream accepted under its id; only deadline and attempts have changed, and these attempts all failed |
| `RoutingRuns.SentIsAccepted` | aiokpl/sender.py:123-134 | In every run the entry of any batch being sent to a stream carries exactly the records this stream accepted under the ids in it: one record's own bytes and key, or a blob that decodes to them in order |
| `RoutingRuns.BatchesArePure` | aiokpl/aggregator.py:146-163 | With lists that tile the hash space, every record of a sent batch for shard s hashes into s's range, and so does the key the service routes the batch by |
| `RoutingRuns.SuccessIsNeverWrongShard` | aiokpl/retrier.py:165-196 | While the predicted shard is still among the service's shards, a success from the owner of the routing key is accepted for every record, whatever the cached map holds |
| `RoutingRuns.AcceptedIsOnItsShard` | aiokpl/retrier.py:165-196 | Soundness: in every run, whatever the map holds when the answer is taken up, a record of a batch with a shard is accepted from a parsed actual shard only if its hash key lies in that shard's range |
| `RoutingRuns.ExpiredBatchesAreOld` | aiokpl/limiter.py:230-232 | In every run, records of an expired batch are at least TTL old; they finish as expired, and are retried if and only if their age is exactly the TTL |
| `RoutingRuns.NothingEmptyIsSent` | aiokpl/sender.py:120-121 | The sender's empty-batch error is never reached |
| `RoutingRuns.ResultsAreTerminal` | aiokpl/producer.py:269-275 | Every delivered result has a non-empty history that fails up to its last attempt, which succeeds exactly when the result does |
| `Provenance.SuccessWasConfirmed` | aiokpl/sender.py:156-176 | In every run a record has a successful result only if some step answered a request of its stream whose k-th batch held it, with a k-th slot that has a non-empty sequence number; result and last attempt carry that slot's shard id and sequence number and the times of that call |
| `Provenance.SlotSettles` | aiokpl/sender.py:196-214 | For every reply, slot and record of the slot's batch, whatever the shard map says: without a non-empty sequence number the record is not accepted, is rejected exactly if throttled and to be given up, and its attempt carries the slot's code ("Unknown" if missing) and message; with one it is accepted with that slot's shard id and sequence number, or another shard than predicted answered and the attempt says wrong shard |
| `Provenance.RunIsExplained` | aiokpl/retrier.py:129-163 | In every run every attempt of every record, in flight or finished, says what an answer to a request of its stream said about a batch that held it: a success with shard id and sequence number, a failure with code and message, a success of a wrong shard, or expiry once the record is as old as the TTL |
| `Provenance.ActExplained` | aiokpl/retrier.py:129-201 | Every act at a place keeps that, once its own answer counts as said |
| `Provenance.RuleExplained` | aiokpl/retrier.py:152-196 | A ruling on an answer that was given accepts only what was a success, rejects exactly what was throttled and is to be given up, and names the code and message given |
| `Provenance.SettleExplained` | aiokpl/retrier.py:205-294 | Settling adds only attempts that were said or an expiry past the TTL, and the result carries the last one's shard id and sequence number |
| `RoutingRuns.TimersAreArmed` | aiokpl/reducer.py:172-188 | In every run each reducer of each stream that holds anything has a timer armed for its earliest deadline, and no other has one |
| `RoutingRuns.RetriesAreBounded` | aiokpl/retrier.py:254-294 | In every run in which settlings of one record are at least d apart, a record in flight was retried at most floor(ttl / d) + 1 times, and a result carries at most two attempts more |
| `Drainability.EveryRunCanFinish` | aiokpl/producer.py:207-225 | From every reachable state some continuation gives every accepted record its result and frees every permit, calls that wait for a shard map included |
| `Drainability.Advance` | aiokpl/producer.py:250-278 | While anything is pending, some step or two bring the records closer to the end of the line without accepting anything new |
| `Progress.EveryMovingRunFinishes` | aiokpl/producer.py:354-378 | Once everything accepted is past its TTL, every run that accepts nothing more makes at most as many moves as its load, whatever the steps and answers; a run that makes them all has finished every record; and while anything is pending a move is possible |
| `Progress.StepNeverHeavier` | aiokpl/producer.py:250-278 | Past that time no step but a registration adds to the load, and every step that moves a record takes from it |
| `RateRuns.ShardsKeepTheirRate` | aiokpl/limiter.py:88-128 | In every run of the pipeline, in every window of length w, draining admits at most rps (1 + w) batches and bps (1 + w) of their sizes at each limiter, of which every shard of every stream has one; `ByteRuns.BatchSizeIs` says what the size is and `ByteRuns.ShardsKeepTheirByteRate` bounds the bytes sent |
| `RateRuns.DrainedIsPaid` | aiokpl/limiter.py:119-128 | The batches a drain admits into the pipeline are exactly the ones whose tokens that bound counts |
| `RateRuns.LimitersAreConfigured` | aiokpl/limiter.py:81-97 | In every run each limiter refills at rps and bps, holds at most one second's worth and at least nothing, and keeps its queue in the order of the batches' deadlines |
| `ByteRuns.ShardsKeepTheirByteRate` | aiokpl/limiter.py:119-128 | In bytes sent: in every run and every window of length w, the encoded data of the batches admitted at a limiter, tag-free and of estimate at most 2^20, is at most 2 bps (1 + w) + 20 rps (1 + w) long |
| `ByteRuns.RequestsKeepTheirBytes` | aiokpl/collector.py:79-116 | In every run the encoded data of a request of two or more such batches is at most 2 collection_max_size + 20 per batch long, and it holds at most collection_max_count batches |
| `ByteRuns.BatchesKeepTheirBytes` | aiokpl/aggregator.py:179-207 | In every run the encoded data of a tag-free batch of two or more records is at most 2 aggregation_max_size + 20 long, and it holds at most aggregation_max_count records |
| `ByteRuns.BatchSizeIs` | aiokpl/aggregator.py:98-134 | The size of a batch is 8 and its data for every record, and 3 and its UTF-8 for every distinct partition key and explicit hash key |
| `ByteRuns.RequestSizeIs` | aiokpl/collector.py:37-75 | Size and share of a request are sums of batch sizes, the share over the batches of that shard |
| `ByteRuns.BatchDeadlineIs` | aiokpl/aggregator.py:136-140 | The deadline of a batch is the earliest of its records' |
| `ByteRuns.RecordClosesIff` | aiokpl/aggregator.py:317-342 | A record closes the batch of its reducer if and only if records are not aggregated, or the batch then holds aggregation_max_count records or has reached aggregation_max_size |
| `ByteRuns.BatchClosesIff` | aiokpl/collector.py:104-116 | A batch closes the request if and only if it then holds collection_max_count batches, has reached collection_max_size, or the batch's shard has reached its threshold |
| `ByteRuns.EarliestRecordsGo` | aiokpl/reducer.py:139-170 | Records that leave a reducer are due no later than those that stay |
| `ByteRuns.EarliestBatchesGo` | aiokpl/reducer.py:139-170 | And so are the batches of a request |
| `ByteRuns.NewRecordsAreDue` | aiokpl/aggregator.py:241-265 | In every run a record not retried yet is due record_max_buffered_time after its arrival, and the timer of the reducer that holds it is set no later |
| `Resharding.ReshardIsNeverNoticed` | aiokpl/retrier.py:176-201 | In every run with truthful lists and answers, an answer from another shard than predicted is ruled wrong shard for every record, and its report leaves the shard map unchanged |
| `Resharding.InstalledOnce` | aiokpl/shard_map.py:230-236 | In every such run the shard map of a stream never changes again after its first install |
| `Resharding.EveryBatchHasAShard` | aiokpl/aggregator.py:287-295 | In every such run every prediction and every batch, wherever it is, has a shard |
| `Resharding.NoPredictionIff` | aiokpl/shard_map.py:189-207 | In every run there is no prediction if and only if the map is not ready or every shard of its list ends before the key |
| `Resharding.ReportRefreshesIff` | aiokpl/shard_map.py:230-253 | A report starts a refresh if and only if the map knows the shard, was not installed since and is not refreshing; otherwise it changes nothing |
| `Resharding.ReportedIff` | aiokpl/retrier.py:176-201 | Taking up an answer reports a shard if and only if it is a success with records, predicted for another shard, and the shard reported is the one that answered |
| `Resharding.DivertedAcceptedIff` | aiokpl/retrier.py:176-196 | A record of a diverted answer is accepted if and only if the map knows the actual shard with a range that holds its key, and is retried as wrong shard otherwise |
| `Scenarios.MixedBatchIsAcceptedAnywhere` | aiokpl/aggregator.py:335-342 | For any two records that fit one batch and any listing that leaves both keys unowned, a run that sends them in one batch without a shard; any success is accepted for both, although for the two ends of the hash space no shard owns both once there are two |
| `Scenarios.EndsAreValid` | aiokpl/hashing.py:25-37 | The two ends of the hash space are hash keys a caller can give |
| `Scenarios.SingleRecordModeIff` | aiokpl/aggregator.py:335-342 | In every run every closed batch without a shard is one record, if and only if at most one call may be outstanding, the count limit is at most 1, or no two records fit the size limit |
| `Scenarios.RetriedAtTtl` | aiokpl/retrier.py:271-294 | Whatever the service lists, a run in which a record expires in the limiter at exactly its TTL and enters the aggregator again |
| `Scenarios.SplitIsNotNoticed` | aiokpl/retrier.py:176-201 | A run in which the child of a split answers: the record is sent round as wrong shard, and the map stays as it was |
| `Routing.PredictionFits` | aiokpl/aggregator.py:287-295 | The shard predicted for a hash key by a map over tiling lists has a range that contains the key |
| `Routing.ActGood` | aiokpl/producer.py:354-378 | Every act at a place keeps the invariant of records in flight |
| `Routing.HandGood` | aiokpl/aggregator.py:292-295 | Handing a parcel to the stage of its own key keeps that invariant |
| `Routing.QueueingGood` | aiokpl/limiter.py:99-145 | What a drain calls expired has timed out for every record in it |
| `ProducerCode.Producer.Acquire` | aiokpl/producer.py:183-184 | Takes a permit if and only if one is free, and counts the call as outstanding |
| `ProducerCode.Producer.GetOrCreatePipeline` | aiokpl/producer.py:229-236 | A stream gets its own dictionary of pending outcomes, empty, on first use, once its shard map has been ready; until then the call waits; the others are untouched |
| `ProducerCode.Producer.PutRecord` | aiokpl/producer.py:185-205 | Waits for the pipeline; then registers a new unset outcome under the record's id with its stream, or gives the permit back if the hash key is malformed |
| `ProducerCode.Producer.OnRetrierFinish` | aiokpl/producer.py:269-275 | Looks the record up in the finishing stream's own dictionary; the caller's outcome gets exactly this result, no other outcome changes, and the ledger moves by one finish |
| `ProducerCode.Outcome.SetValue` | aiokpl/outcome.py:37-42 | Sets once; a second call is an error and changes nothing |
| `Wire.VarintRoundTrip` | aiokpl/aggregation.py:74-99 | Decoding an encoded varint gives the value and its length, or an error exactly if it needs more than the bytes left |
| `Layout.VarintDigits` | aiokpl/aggregation.py:74-79 | The bytes of a varint are the base-128 digits of the value, least significant first and as few as possible; all but the last carry the continuation bit |
| `Wire.FieldsRoundTrip` | aiokpl/aggregation.py:102-114 | A list of fields survives encoding if and only if each fits |
| `Wire.ParseConcat` | aiokpl/aggregation.py:117-129 | Fields of a well-formed message followed by anything are its fields followed by those |
| `Wire.AppendVarint` | aiokpl/aggregation.py:74-79 | The loop appends the varint encoding |
| `Wire.ReadVarint` | aiokpl/aggregation.py:82-99 | The loop reads what the recursive definition of varints says, errors included, and ends within ten bytes |
| `Wire.AppendLengthDelimited` | aiokpl/aggregation.py:106-109 | Appends the encoding of a length-delimited field |
| `Wire.AppendUint64` | aiokpl/aggregation.py:112-114 | Appends the encoding of a varint field |
| `Wire.SkipUnknown` | aiokpl/aggregation.py:117-129 | Moves past a varint or length-delimited field, and fails on anything else or on truncation |
| `AggregationCode.EncodeTagMsg` | aiokpl/aggregation.py:135-140 | Produces the tag message |
| `AggregationCode.EncodeRecordMsg` | aiokpl/aggregation.py:143-156 | Produces the record message: indices, data, tags in order |
| `AggregationCode.InternKey` | aiokpl/aggregation.py:168-173 | Keeps list and dictionary inverse to each other and returns the key's first position |
| `AggregationCode.TablesGrow` | aiokpl/aggregation.py:167-184 | Adding a record never moves a key already in a table |
| `AggregationCode.RecordMsgsGrow` | aiokpl/aggregation.py:167-184 | So messages already built stay right for the final tables |
| `AggregationCode.AggregatedBuilder.Add` | aiokpl/aggregation.py:167-184 | Keeps tables, dictionaries and messages equal to what the records added so far require |
| `AggregationCode.AggregatedBuilder.Serialize` | aiokpl/aggregation.py:186-194 | Writes the tables and records of everything added |
| `AggregationCode.EncodeAggregated` | aiokpl/aggregation.py:200-217 | Computes the specified encoding: error, raw data, or framed payload |
| `Layout.BlobLayout` | aiokpl/aggregation.py:143-217 | The blob of two or more records, byte by byte: F3 89 9A C2, tables under 0A and 12, records under 1A and the digest of what lies between; each record has 08 and the place of its partition key, 10 and that of its explicit hash key if any, 1A and its data, 22 and each tag; one record is its own data |
| `Layout.TablesAreFirstUses` | aiokpl/aggregation.py:167-184 | The tables hold each key that is used, once, in the order of first use |
| `Layout.TagLayout` | aiokpl/aggregation.py:135-140 | A tag is 0A and its key, and 12 and its value if it has one |
| `AggregationCode.DecodeTagMsg` | aiokpl/aggregation.py:225-252 | The loop computes the specified meaning of a tag message and ends on every input |
| `AggregationCode.DecodeRecordMsg` | aiokpl/aggregation.py:255-306 | The same for a record message, index checks included |
| `AggregationCode.DecodeProto` | aiokpl/aggregation.py:325-359 | The same for the whole payload |
| `AggregationCode.DecodeAggregated` | aiokpl/aggregation.py:309-323 | Computes the specified decoding; success implies magic and a matching footer |
| `RoundTrip.CodecRoundTrip` | aiokpl/aggregation.py:200-217 | For every batch of two or more records decoding the encoding gives the same records in order if and only if everything fits below 2^70, and an error otherwise |
| `RoundTrip.PayloadRoundTrip` | aiokpl/aggregation.py:186-194 | The same for the payload without its frame |
| `RoundTrip.RecordRoundTrip` | aiokpl/aggregation.py:143-156 | The same for one record message against the tables |
| `RoundTrip.TagRoundTrip` | aiokpl/aggregation.py:135-140 | The same for a tag message |
| `DecoderMeaning.DecodeDependsOnKnownFields` | aiokpl/aggregation.py:325-359 | Two well-formed payloads with the same field-1, field-2 and field-3 subsequences decode alike |
| `DecoderMeaning.DecodeDependsOnMeanings` | aiokpl/aggregation.py:325-359 | Payloads with the same tables and record messages that mean the same one by one decode alike |
| `DecoderMeaning.UnknownFieldsIgnored` | aiokpl/aggregation.py:331-357 | Unknown fields inserted at any boundary of the payload change nothing |
| `DecoderMeaning.UnknownInsideRecord` | aiokpl/aggregation.py:266-289 | Unknown fields inserted at any boundary inside a record message, lengths and footer written anew, leave the decoded records unchanged |
| `DecoderMeaning.UnknownInsideTag` | aiokpl/aggregation.py:230-249 | The same for unknown fields inside a tag message inside a record message |
| `DecoderMeaning.RecordDependsOnKnownFields` | aiokpl/aggregation.py:266-289 | A record message means the last of fields 1, 2 and 3 and all of field 4 |
| `DecoderMeaning.TagDependsOnKnownFields` | aiokpl/aggregation.py:230-249 | A tag message means the last of fields 1 and 2 |
| `DecoderMeaning.FrameDecodes` | aiokpl/aggregation.py:315-323 | A framed payload passes the checks and decodes to the meaning of the payload |
| `Acceptance.BlobIff` | aiokpl/aggregation.py:309-323 | A blob decodes to these records if and only if it is F3 89 9A C2, a payload that does, and the digest of that payload |
| `Acceptance.PayloadIff` | aiokpl/aggregation.py:325-359 | A payload decodes to these records if and only if it parses, fields 1 and 2 are text, and field 3 is, one by one, messages of these records against the tables of those texts |
| `Acceptance.RecordIff` | aiokpl/aggregation.py:255-306 | A record message decodes to r if and only if it parses, has a partition key index and data, every last index is in its table, every tag decodes, and r has the keys at those places, the last data and all tags in order |
| `Acceptance.TagIff` | aiokpl/aggregation.py:225-252 | A tag message decodes to t if and only if it parses, all keys and values are text, it has a key, and t has the last key and the last value, if any |
| `Acceptance.FieldsIff` | aiokpl/aggregation.py:117-129 | A message parses to these fields if and only if it is them one after the other with nothing left over |
| `Acceptance.FieldIff` | aiokpl/aggregation.py:82-129 | A field is read if and only if its key has wire type 0 and a varint follows, or wire type 2 and a length and that many bytes |
| `Acceptance.VarintIff` | aiokpl/aggregation.py:82-99 | A varint is read from n bytes if and only if n is at most ten, exactly the last of them lacks the continuation bit, and the value is their base-128 number, least significant first |
| `SizeBound.EstimateBound` | aiokpl/aggregator.py:98-108 | For every tag-free batch of n >= 2 records: size + 20 - 3n <= length of the blob, and up to a size of 2^20 the length is at most 2 size + 20 |
| `SizeBound.EstimateIsSum` | aiokpl/aggregator.py:98-108 | The running estimate is a sum over records plus a sum over distinct keys |
| `Batches.AggregatedBatch.Add` | aiokpl/aggregator.py:98-108 | Appends the item; cached size and both key sets equal a recomputation |
| `Batches.AggregatedBatch.RemoveLast` | aiokpl/aggregator.py:110-122 | Exactly undoes the last add |
| `Batches.PutRecordsBatch.Add` | aiokpl/collector.py:37-42 | Appends the item; total and per-shard bytes equal a recomputation, which `ByteRuns.RequestSizeIs` and `ByteRuns.BatchSizeIs` give in terms of keys and data |
| `Batches.PutRecordsBatch.RemoveLast` | aiokpl/collector.py:44-52 | Exactly undoes the last add |
| `Collector.ShareBound` | aiokpl/collector.py:104-116 | With items below T and arrivals in deadline order, over every run no open request has a shard share of T or more and no dispatched one a share of 2T or more; `ByteRuns.RequestSizeIs` and `ByteRuns.BatchSizeIs` say what a share is |
| `Sorting.StableSortMeaning` | aiokpl/reducer.py:146 | The sort is ordered, a permutation and keeps ties in order |
| `Sorting.StableSortUnique` | aiokpl/reducer.py:146 | These properties determine the result |
| `Sorting.InsertRightKeeps` | aiokpl/limiter.py:96-97 | Insertion keeps the queue sorted and adds exactly the item |
| `Sorting.InsertRightStable` | aiokpl/limiter.py:96-97 | A new item goes behind its ties |
| `ReducerSpec.PackPartitions` | aiokpl/reducer.py:139-170 | Closed ++ remaining is the stable deadline sort; closed is non-empty, within count_limit and size_limit unless it is one item, and the longest such prefix |
| `ReducerSpec.PackFromMeaning` | aiokpl/reducer.py:151-162 | Where the greedy loop stops |
| `ReducerSpec.ClosesIff` | aiokpl/reducer.py:101-125 | For every state and item: an add closes a batch if and only if the predicate holds of the grown buffer, or its count is at least the count limit, or its size at least the size limit; a flush if and only if anything is buffered; a timer if and only if it is the armed one and anything is buffered |
| `ReducerCode.Reducer.PackAndSplit` | aiokpl/reducer.py:139-170 | Sorting, packing and re-injecting compute the specified split and re-arm the timer |
| `ReducerCode.Reducer.Pack` | aiokpl/reducer.py:151-162 | The add and undo loop splits the sorted candidates where the specification does |
| `ReducerCode.Reducer.Add` | aiokpl/reducer.py:94-114 | Is the specified step of the buffer and the timer; `ReducerSpec.ClosesIff` says when it closes a batch and `ReducerSpec.PackPartitions` which |
| `ReducerCode.Reducer.Flush` | aiokpl/reducer.py:116-125 | Is the specified step |
| `ReducerCode.Reducer.Fire` | aiokpl/reducer.py:202-214 | Is the specified step, the stale check included |
| `ReducerCode.Reducer.RescheduleTimer` | aiokpl/reducer.py:177-188 | Cancels the timer and arms a new one for the earliest deadline if anything is buffered |
| `ReducerCode.Reducer.EarliestDeadline` | aiokpl/aggregator.py:136-140 | The least deadline of the items, or none when there are none |
| `ReducerRuns.TimerProtocol` | aiokpl/reducer.py:172-188 | In every reachable state a timer is armed if and only if something is buffered, its target is the least deadline, and it is neither cancelled nor spent |
| `ReducerRuns.OnlyTheArmedTimerCloses` | aiokpl/reducer.py:202-214 | A cancelled, spent or unknown timer changes nothing; the armed one closes a batch that starts with its item, once |
| `ReducerRuns.RunConserves` | aiokpl/reducer.py:94-125 | Over every run each added item is in exactly one closed batch or still buffered |
| `ReducerRuns.RunRespectsLimits` | aiokpl/reducer.py:151-162 | Every batch ever closed is non-empty and within both limits unless it is one item |
| `ReducerRuns.BatchesWereDue` | aiokpl/reducer.py:101-125 | Over every run a step adds one closed batch if and only if it was due: an add to a buffer then at one of the limits or with the predicate, a flush or the armed timer of a non-empty buffer |
| `ReducerRuns.EarliestGoFirst` | aiokpl/reducer.py:139-170 | What closes is due no later than what stays |
| `ReducerRuns.FlushAllDrains` | aiokpl/reducer.py:116-125 | Repeated flushing ends within `count` batches, which concatenate to the stable deadline sort |
| `ReducerRuns.OneFlushEmptiesIff` | aiokpl/reducer.py:116-125 | For sizes that do not depend on the order, one flush empties the buffer if and only if it holds at most one item or is within both limits |
| `Flushing.AggregatorFlushIff` | aiokpl/reducer.py:116-125 | The same for the reducer of a shard, in terms of the count and size of its buffer as they are |
| `Flushing.CollectorFlushIff` | aiokpl/reducer.py:116-125 | The same for the request being collected |
| `Flushing.EstimatePermuted` | aiokpl/aggregator.py:98-108 | The size of a batch does not depend on the order its records were added in |
| `Flushing.OneFlushMayLeaveItems` | aiokpl/reducer.py:158-167 | A run of a shard's reducer after which one flush does not empty the buffer |
| `ReducerRuns.InOrderRuns` | aiokpl/reducer.py:94-125 | With arrivals in deadline order the output is the input, the buffer stays below both limits or a single item, and one flush empties it |
| `TokenBucket.GrowIsInvisible` | aiokpl/token_bucket.py:97-105 | Growing shows the level min(max, tokens + rate (now - last)) and changes no later level |
| `TokenBucket.AtomicDebitMeaning` | aiokpl/token_bucket.py:75-95 | The debit succeeds if and only if every stream's level covers its amount; it debits all, or no later reading can tell it was tried |
| `TokenBucket.TracksThroughTake` | aiokpl/token_bucket.py:93-95 | A lazily grown stream keeps showing the continuous reference after a debit |
| `TokenBucket.TracksThroughGrow` | aiokpl/token_bucket.py:69-73 | The tokens a query returns are those of the continuous reference after all debits so far |
| `TokenBucket.WindowBound` | aiokpl/token_bucket.py:75-105 | In every window of every run the debits stay within one full bucket plus the refill |
| `TokenBucket.WindowRate` | aiokpl/token_bucket.py:75-105 | With one second's capacity, at most rate (1 + w) in a window of length w |
| `TokenBucket.Bucket.Available` | aiokpl/token_bucket.py:69-73 | Returns the reference level and is otherwise invisible |
| `TokenBucket.Bucket.TryTake` | aiokpl/token_bucket.py:75-95 | The two loops compute the atomic debit; wrong lengths and negative amounts are errors |
| `Limiter.RateBound` | aiokpl/limiter.py:88-128 | Over every run of puts, drains and flushes of one limiter, in every window of length w draining admits at most rps (1 + w) batches and bps (1 + w) bytes |
| `Limiter.RunTracks` | aiokpl/limiter.py:99-128 | Over every run both streams show the continuous buckets after the admissions made |
| `Limiter.DrainPartitions` | aiokpl/limiter.py:99-128 | Queue = expired + admitted + kept; expired are exactly the timed-out entries; admitted is a deadline prefix of the live ones, and the first one kept was refused by the bucket |
| `Limiter.DrainForcePartitions` | aiokpl/limiter.py:130-145 | A flush leaves nothing and takes no token: exactly the timed-out entries expire and exactly the others are admitted, each in deadline order |
| `Limiter.DrainStopsWhereTokensRunOut` | aiokpl/limiter.py:119-128 | Over every run that ends with a drain: the continuous buckets, after all admissions so far, do not cover the first entry kept |
| `Limiter.ExpiredCostNothing` | aiokpl/limiter.py:106-117 | Without the expired entries the drain leaves the same tokens, queue and admissions |
| `Limiter.RefilledAdmitsHead` | aiokpl/limiter.py:119-128 | A second after the last update, the first live entry is admitted if its size is within bps and rps >= 1 |
| `Limiter.FreshAdmitsHead` | aiokpl/limiter.py:81-94 | A new limiter admits its first live entry at once, if its size is within bps and rps >= 1 |
| `LimiterCode.ShardLimiter.Put` | aiokpl/limiter.py:96-97 | Inserts in deadline order behind ties |
| `LimiterCode.ShardLimiter.Sweep` | aiokpl/limiter.py:106-113 | The loop splits the queue into expired and live, in order |
| `LimiterCode.ShardLimiter.Drain` | aiokpl/limiter.py:99-128 | Is the specified drain of queue and bucket |
| `LimiterCode.ShardLimiter.Admit` | aiokpl/limiter.py:119-128 | The pop loop admits exactly the specified prefix |
| `LimiterCode.ShardLimiter.DrainForce` | aiokpl/limiter.py:130-145 | Empties the queue into live and expired without touching tokens |
| `ShardMap.BisectFindsOwner` | aiokpl/shard_map.py:189-207 | On tiling ranges, bisecting the sorted endings finds a shard that contains the key |
| `ShardMap.BisectSplits` | aiokpl/shard_map.py:199 | What `bisect_left` returns on ascending endings |
| `ShardMap.LinearFindsOwner` | aiokpl/shard_map.py:209-214 | The linear search returns the one shard whose range contains the key |
| `ShardMapRuns.RunKeeps` | aiokpl/shard_map.py:327-357 | In every run in which no forgotten shard returns: tables are those of the last list, every known shard is open or has a closing time and never both, closed shards are kept while their time runs, at most one refresh loop runs |
| `ShardMapRuns.StepKeeps` | aiokpl/shard_map.py:230-279 | Starting, invalidating, failing, installing and cleaning each keep that invariant |
| `ShardMapRuns.OpenAnsweredIff` | aiokpl/shard_map.py:335-398 | After an install and any later clean-up every open shard answers with its listed range if and only if no forgotten shard returned |
| `ShardMapRuns.ReturningShardIsDropped` | aiokpl/shard_map.py:335-341 | A run in which a returning shard loses its range |
| `ShardMapRuns.PredictionIsOwner` | aiokpl/shard_map.py:189-214 | In every reachable ready state over a tiling list, `predict` equals the linear search and `hashrange` of it contains the key |
| `ShardMapRuns.ClosedShardStaysAnswerable` | aiokpl/shard_map.py:335-341 | A shard that vanishes stays answerable with its last range for at least closed_shard_ttl |
| `ShardMapRuns.ClosedShardIsForgotten` | aiokpl/shard_map.py:376-398 | A closed shard keeps its closing time over every run that does not list it again, and the first clean-up of a ready map past its TTL forgets it |
| `ShardMapRuns.UpdatedAtNeverDecreases` | aiokpl/shard_map.py:240-253 | Over every run, whatever is listed: at most one refresh loop runs, exactly while updating, and the time of the last install never goes back |
| `ShardMapRuns.BackoffDoubles` | aiokpl/shard_map.py:240-279 | In every run, whatever comes in between: with min <= max the k-th failure since a refresh began sleeps min(max_backoff, min_backoff 2^k) |
| `ShardMapRuns.FirstSleepIff` | aiokpl/shard_map.py:271-273 | The first sleep obeys that formula if and only if min <= max |
| `ShardMapCode.FetchAllPages` | aiokpl/shard_map.py:281-309 | The loop follows the tokens page by page; if the pages describe the shards of any split list, the snapshot holds exactly those endings, ids and ranges, and it fails if and only if they describe none |
| `Listings.ListingRoundTrip` | aiokpl/shard_map.py:281-309 | Any shards with ids >= 0 and start <= end < 2^128, written in any way and split over pages in any way, are read back as exactly those: every ending with its id in order, ties by id, and by id the listed range |
| `Listings.ServedRoundTrip` | aiokpl/shard_map.py:281-309 | The same from the service on: whatever tokens its pages carry, each call with the token of the page before and the last page with none or an empty one |
| `Listings.FetchAllIff` | aiokpl/shard_map.py:281-325 | A listing is read if and only if every page describes shards, and is an error otherwise |
| `Listings.BuildShardIff` | aiokpl/shard_map.py:311-325 | A shard is read from exactly its descriptions: its name, its start and its end in decimal |
| `Listings.ParseIdIff` | aiokpl/shard_map.py:72-76 | Map and retrier read id n from a name if and only if the name is `shardId-` and n in decimal, perhaps after zeros |
| `Listings.SnapshotHolds` | aiokpl/shard_map.py:298-309 | The tables built from a list hold exactly its endings, ids and ranges |
| `ShardMapCode.Cache.MergeClosed` | aiokpl/shard_map.py:333-341 | The loop over known shards computes closing times and retained shards, in whatever order it visits them |
| `ShardMapCode.Cache.InstallSnapshot` | aiokpl/shard_map.py:327-357 | Is the specified install step |
| `ShardMapCode.Cache.SpawnRefresh` | aiokpl/shard_map.py:240-253 | Starts a loop and resets the backoff unless one is running |
| `ShardMapCode.Cache.Invalidate` | aiokpl/shard_map.py:230-236 | Refreshes unless the sighting is old or the shard unknown |
| `ShardMapCode.Cache.OnFetchFailed` | aiokpl/shard_map.py:264-274 | Sleeps the current backoff and doubles it up to the maximum |
| `ShardMapCode.Cache.Cleanup` | aiokpl/shard_map.py:376-398 | When ready, drops exactly the closed shards whose time is up |
| `Hashing.ParsePrintedHashKey` | aiokpl/hashing.py:25-37 | A printed 128-bit hash key parses back to itself |
| `Hashing.Md5HashKeyInRange` | aiokpl/hashing.py:19-22 | The hash of a partition key is below 2^128; its digits are those of `Md5HashKeyDigits` |
| `Hashing.Md5HashKeyDigits` | aiokpl/hashing.py:19-22 | The i-th digit of the hash key to base 256, from the most significant, is the i-th byte of the MD5 digest of the key's UTF-8 |
| `Hashing.ParseHashKeyIff` | aiokpl/hashing.py:25-37 | An explicit hash key parses to n if and only if n < 2^128 and the text is n in decimal, perhaps after zeros |
| `Hashing.DecimalDigits` | aiokpl/hashing.py:25-37 | The i-th character of a string of digits is the i-th decimal digit of its value |
| `Hashing.RoutingHash` | aiokpl/aggregator.py:146-163 | The routing keys of any batch hash to the hash key of its first record |
| `Requests.BuildEntries` | aiokpl/sender.py:120-134 | One entry per batch in order, or an error exactly if the request or a batch is empty; each entry's keys hash to its first record's key and its data decodes to its records |
| `Requests.EntryMeaning` | aiokpl/aggregator.py:142-163 | What the service reads from an entry: the routing hash, and the records of the batch |
| `Retrier.EveryRecordIsRuledOnce` | aiokpl/sender.py:156-176 | Whatever is answered, every record sent gets exactly one ruling, in order; `Provenance.SlotSettles` says which |
| `Retrier.SettleHistory` | aiokpl/retrier.py:205-294 | Settling changes only history and deadline; the first attempt added says when the send was and what the ruling is; an acceptance or rejection finishes the record, and a retry finishes it, as expired, if and only if it is older than its TTL; a result is terminal; a retry sets the short deadline |
| `Retrier.LifeHistory` | aiokpl/retrier.py:205-294 | Over every life of a record: identity, arrival time and hash key never change, attempts only extend, re-entry only within the TTL, a terminal result as above |
| `Retrier.RetryingEnds` | aiokpl/retrier.py:254-294 | If trips are at least d apart, the record is terminal within floor(ttl / d) + 2 classifications |
| `RetrierCode.Handler.Handle` | aiokpl/retrier.py:129-135 | Every record object of an outcome is settled by its own ruling and no other, in order; a request error reports no shard, answers report one each if diverted |
| `RetrierCode.Handler.HandleRequestError` | aiokpl/retrier.py:139-148 | The loops over batches and records apply the throttling branch to each record once |
| `RetrierCode.Handler.HandlePerRecord` | aiokpl/retrier.py:152-181 | The branches on success, error code, throttling, prediction and actual shard give every record the ruling of the table |
| `RetrierCode.Handler.HandleDiverted` | aiokpl/retrier.py:181-201 | Records inside the actual shard's range succeed, the others are retried, and the flag lets the shard map hear of the shard exactly once |
| `RetrierCode.Handler.HandleAnswers` | aiokpl/retrier.py:134-135 | The answers in turn, each with the ranges known when it is taken up; every diverted answer reports its shard exactly once |
| `RetrierCode.Handler.FinishSuccess` | aiokpl/retrier.py:205-227 | Appends the successful attempt and reports the whole history |
| `RetrierCode.Handler.Fail` | aiokpl/retrier.py:229-252 | Appends the failed attempt and reports the whole history |
| `RetrierCode.Handler.RetryNotExpired` | aiokpl/retrier.py:254-294 | Appends the failure, then expires or re-enters with the short deadline |
| `Metrics.SummaryMeaning` | aiokpl/metrics.py:123-140 | The summary of a log is its count, sum, least and greatest value |
| `Metrics.RecentIsSuffix` | aiokpl/metrics.py:102-105 | In an ordered log the entries from a second on are a suffix, and exactly those |
| `Metrics.GroupSummary` | aiokpl/metrics.py:129-140 | Merging per-second buckets gives the summary of the log |
| `Metrics.EvictGroup` | aiokpl/metrics.py:102-105 | Popping old buckets is forgetting exactly the old entries |
| `MetricsCode.Accumulator.EvictOld` | aiokpl/metrics.py:102-105 | Afterwards the buckets hold exactly the log's last `window` seconds |
| `MetricsCode.Accumulator.PutValue` | aiokpl/metrics.py:107-121 | Under a clock that does not go back: appends one observation to the log the buckets stand for |
| `MetricsCode.Accumulator.Stats` | aiokpl/metrics.py:123-140 | Under a clock that does not go back: the summary of the log restricted to the last `window` integer seconds, None if and only if that is empty |
| `MetricsCode.Accumulator.WindowBounds` | aiokpl/metrics.py:142-149 | The first second held and the one after the last, which enclose every entry held |
| `MetricsCode.Accumulator.FewBuckets` | aiokpl/metrics.py:102-121 | At most `window` buckets (one if the window is empty), with strictly increasing seconds |

## Left out

- `aclose` and exceptions or cancellation after a record is registered: items are dropped or accounting is rolled back there, so conservation is about runs before them.
- The dictionaries of `Aggregator` and `Limiter` and their `flush` loops are steps of `Pipeline` on values, not classes; update in place there is not captured.
- What a flush of the limiter forces out: it ignores tokens by design and is not counted by the rate bounds.
- `Limiter.put` enqueues and drains under one lock; `Pipeline` has two steps, which allows more runs.
- Where in the loop over an answer's records its report reaches the shard map: in `Pipeline` it may come before or after any of them.
- ShardMapCode.FetchAllPages: a listing without end, which would keep the loop going for ever, is excluded.
- The order in which one task dispatches several batches; parcels may overtake each other.
- Reducer batches are sequences of items with a size function; the containers of `Batches` are proved to be determined by their items and are not held by the reducer class.
- UTF-8 and MD5 internals; the text of errors, one error value standing for all of a kind; logging.
- Digits outside ASCII and a trailing newline, which the shard-id pattern would let through.
- Floating-point rounding: times, rates and tokens are real numbers.
- The HTTP client, credentials, sessions, locks, task groups and event loops, the synchronous wrapper, configuration checks, metric emission and sinks.
