/** The producer of aiokpl/producer.py as a transition system.

    Records move from the aggregator's reducers through the limiters and the
    collector into a send, and from there to a result or back to the
    aggregator. What was taken out of one stage and not yet handed to the next
    is a parcel, so that anything may happen at every `await` in between. Each
    body that runs under a lock is one step. `Limiter.put` enqueues and drains
    under one lock; here these are two steps, which allows more runs. An answer
    from another shard than predicted is reported to the shard map between the
    taking up of that answer and of the next. */
module Pipeline {
  import opened Common
  import opened Aggregation
  import opened Records
  import opened Hashing
  import opened Retrier
  import opened Batches
  import R = ReducerSpec
  import L = Limiter
  import M = ShardMap

  datatype Config = Config(
    codec: Codec,
    maxOutstanding: nat,
    aggregationEnabled: bool,
    bufferedTime: real,
    aggregationMaxCount: int,
    aggregationMaxSize: int,
    collectionMaxCount: int,
    collectionMaxSize: int,
    shareThreshold: int,
    rps: real,
    bps: real,
    policy: Policy,
    shardMap: M.Config)

  function AggregatorOf(cfg: Config): R.Config<Buffered> {
    AggregatorConfig(cfg.codec, if cfg.aggregationEnabled then cfg.aggregationMaxCount else 1, cfg.aggregationMaxSize)
  }

  function CollectorOf(cfg: Config): R.Config<Batch<Buffered>> {
    CollectorConfig(cfg.codec, cfg.collectionMaxCount, cfg.collectionMaxSize, cfg.shareThreshold)
  }

  function LimiterOf(cfg: Config): L.Config<Batch<Buffered>> {
    L.Config((b: Batch<Buffered>) => BatchDeadline(b), (b: Batch<Buffered>) => BatchSize(cfg.codec, b))
  }

  // ---- Where records are ----

  /** A stage, or a parcel between stages. `reports` are shards the shard map is
      yet to hear of. A limiter remembers when it was made
      and what happened to it. */
  datatype Place =
    // Stages
    | Buffering(stream: string, shard: Option<int>, buffer: R.State<Buffered>)
    | Queueing(stream: string, shard: Option<int>, limiter: L.State<Batch<Buffered>>,
               since: real, history: seq<L.Event<Batch<Buffered>>>)
    | Collecting(stream: string, open: R.State<Batch<Buffered>>)
    // Parcels
    | Registered(stream: string, record: Buffered)
    | Predicted(stream: string, shard: Option<int>, record: Buffered)
    | Closed(stream: string, batch: Batch<Buffered>)
    | Admitted(stream: string, batch: Batch<Buffered>)
    | Expired(stream: string, batch: Batch<Buffered>)
    | Sending(stream: string, batches: seq<Batch<Buffered>>)
    | Handling(stream: string, startedAt: real, endedAt: real,
               ruled: seq<(Buffered, Ruling)>, waiting: seq<PerRecord<Buffered>>, reports: seq<int>)
    | Done

  datatype Kind = ReducerKind | LimiterKind | CollectorKind

  datatype Key = Key(kind: Kind, stream: string, shard: Option<int>)

  /** The dictionary entry a stage lives under. */
  function KeyOf(p: Place): Option<Key> {
    match p
    case Buffering(stream, shard, _) => Some(Key(ReducerKind, stream, shard))
    case Queueing(stream, shard, _, _, _) => Some(Key(LimiterKind, stream, shard))
    case Collecting(stream, _) => Some(Key(CollectorKind, stream, None))
    case _ => None
  }

  /** The stage a parcel is handed to. */
  function Destination(p: Place): Option<Key> {
    match p
    case Predicted(stream, shard, _) => Some(Key(ReducerKind, stream, shard))
    case Closed(stream, batch) => Some(Key(LimiterKind, stream, batch.shard))
    case Admitted(stream, _) => Some(Key(CollectorKind, stream, None))
    case _ => None
  }

  function NewStage(cfg: Config, key: Key, at: real): Place {
    match key.kind
    case ReducerKind => Buffering(key.stream, key.shard, R.Initial())
    case LimiterKind => Queueing(key.stream, key.shard, L.State([], L.FreshStreams(cfg.rps, cfg.bps, at)), at, [])
    case CollectorKind => Collecting(key.stream, R.Initial())
  }

  // ---- What happens at a place ----

  /** The place afterwards, the parcels sent off, and the record that got its
      result, if one did. */
  datatype Effect = Effect(place: Place, more: seq<Place>, finished: Option<(Ticket, RecordResult)>)

  datatype Act =
    | Predicting                                    // put_buffered asks the shard map
    | Flushing                                      // a reducer is flushed
    | Firing(id: nat)                               // timer `id` of a reducer wakes up
    | Draining(clock: nat -> real, until: real)     // a shard limiter drains
    | Forcing                                       // a shard limiter is flushed
    | Answering(response: Response, startedAt: real) // PutRecords returns or raises
    | Giving                                        // _handle_expired
    | Classifying                                   // the retrier turns to the next answer
    | Settling                                      // the retrier settles the next record

  function ClosedParcel(stream: string, shard: Option<int>, closed: Option<seq<Buffered>>): seq<Place> {
    if closed.None? then [] else [Closed(stream, Batch(shard, closed.value))]
  }

  function SendingParcel(stream: string, closed: Option<seq<Batch<Buffered>>>): seq<Place> {
    if closed.None? then [] else [Sending(stream, closed.value)]
  }

  function ExpiredParcels(stream: string, bs: seq<Batch<Buffered>>): (ps: seq<Place>)
    ensures |ps| == |bs| && forall i :: 0 <= i < |ps| ==> ps[i] == Expired(stream, bs[i])
  {
    seq(|bs|, i requires 0 <= i < |bs| => Expired(stream, bs[i]))
  }

  function AdmittedParcels(stream: string, bs: seq<Batch<Buffered>>): (ps: seq<Place>)
    ensures |ps| == |bs| && forall i :: 0 <= i < |ps| ==> ps[i] == Admitted(stream, bs[i])
  {
    seq(|bs|, i requires 0 <= i < |bs| => Admitted(stream, bs[i]))
  }

  function ActBuffering(cfg: Config, p: Place, act: Act, at: real): Option<Effect>
    requires p.Buffering?
  {
    match act
    case Flushing =>
      var (b, closed) := R.Flush(AggregatorOf(cfg), p.buffer, at);
      Some(Effect(p.(buffer := b), ClosedParcel(p.stream, p.shard, closed), None))
    case Firing(id) =>
      var (b, closed) := R.Fire(AggregatorOf(cfg), p.buffer, id, at);
      Some(Effect(p.(buffer := b), ClosedParcel(p.stream, p.shard, closed), None))
    case _ => None
  }

  function ActCollecting(cfg: Config, p: Place, act: Act, at: real): Option<Effect>
    requires p.Collecting?
  {
    match act
    case Flushing =>
      var (b, closed) := R.Flush(CollectorOf(cfg), p.open, at);
      Some(Effect(p.(open := b), SendingParcel(p.stream, closed), None))
    case Firing(id) =>
      var (b, closed) := R.Fire(CollectorOf(cfg), p.open, id, at);
      Some(Effect(p.(open := b), SendingParcel(p.stream, closed), None))
    case _ => None
  }

  /** Every limiter is created with two streams and keeps them. */
  function ActQueueing(cfg: Config, p: Place, act: Act, at: real): Option<Effect>
    requires p.Queueing?
  {
    match act
    case Draining(clock, until) =>
      if |p.limiter.streams| != 2 then None
      else
        var (l, admitted, expired) := L.Drain(LimiterOf(cfg), p.limiter, at, clock);
        Some(Effect(p.(limiter := l, history := p.history + [L.Draining(at, clock, until)]),
                    ExpiredParcels(p.stream, expired) + AdmittedParcels(p.stream, admitted), None))
    case Forcing =>
      var (l, admitted, expired) := L.DrainForce(p.limiter, at);
      Some(Effect(p.(limiter := l, history := p.history + [L.Forcing(at)]),
                  ExpiredParcels(p.stream, expired) + AdmittedParcels(p.stream, admitted), None))
    case _ => None
  }

  function HashOf(): Buffered -> int {
    (b: Buffered) => b.hashKey
  }

  function Lookup(map': M.State): int -> Option<(int, int)> {
    id => M.HashRange(map', id)
  }

  /** An outcome is taken up: a request error rules on every record at once,
      answers wait for their turn. */
  function Received(cfg: Config, stream: string, o: SendOutcome<Buffered>): Place {
    Handling(stream, o.startedAt, o.endedAt,
             if o.requestError.Some? then Rulings(cfg.policy, o, HashOf(), k => id => None) else [],
             if o.requestError.Some? then [] else o.perRecord, [])
  }

  function ActHandling(cfg: Config, map': M.State, p: Place, act: Act, at: real): Option<Effect>
    requires p.Handling?
  {
    match act
    case Classifying =>
      if p.ruled != [] || p.reports != [] || p.waiting == [] then None
      else
        var pr := p.waiting[0];
        Some(Effect(p.(ruled := RuleItems(cfg.policy, pr, HashOf(), Lookup(map')), waiting := p.waiting[1..],
                       reports := Sighting(pr)), [], None))
    case Settling =>
      if p.ruled == [] then None
      else
        var (record, verdict) := Settle(cfg.policy, p.ruled[0].0, p.startedAt, p.endedAt, p.ruled[0].1, at);
        var rest := p.(ruled := p.ruled[1..]);
        Some(match verdict
             case Finished(result) => Effect(rest, [], Some((Ticket(p.stream, record.id), result)))
             case Retried => Effect(rest, [Registered(p.stream, record)], None))
    case _ => None
  }

  /** What `act` does at place `p`, or `None` if it cannot happen there. */
  function ActAt(cfg: Config, map': M.State, p: Place, act: Act, at: real): Option<Effect> {
    match p
    case Buffering(_, _, _) => ActBuffering(cfg, p, act, at)
    case Collecting(_, _) => ActCollecting(cfg, p, act, at)
    case Queueing(_, _, _, _, _) => ActQueueing(cfg, p, act, at)
    case Handling(_, _, _, _, _, _) => ActHandling(cfg, map', p, act, at)
    case Registered(stream, record) =>
      if act.Predicting? then Some(Effect(Predicted(stream, M.Predict(map', record.hashKey), record), [], None))
          else None
    case Sending(stream, batches) =>
      if !act.Answering? || act.startedAt > at then None
      else (match Send(batches, act.response, act.startedAt, at)
            case Err => None
            case Ok(o) => Some(Effect(Received(cfg, stream, o), [], None)))
    case Expired(stream, batch) =>
      if act.Giving? then
        Some(Effect(Received(cfg, stream, SendOutcome(at, at, Some((EXPIRED, EXPIRED_IN_QUEUE)), [], [batch])), [],
                    None))
      else None
    case _ => None
  }

  /** A parcel enters its stage. */
  function HandTo(cfg: Config, parcel: Place, stage: Place, at: real): Option<Effect> {
    match (parcel, stage)
    case (Predicted(stream, shard, record), Buffering(_, _, buffer)) =>
      var (b, closed) := R.Add(AggregatorOf(cfg), buffer, record, at);
      Some(Effect(stage.(buffer := b), ClosedParcel(stream, shard, closed), None))
    case (Closed(_, batch), Queueing(_, _, limiter, _, history)) =>
      var expiresAt := at + cfg.policy.ttl;
      Some(Effect(stage.(limiter := L.Enqueue(LimiterOf(cfg), limiter, batch, expiresAt),
                         history := history + [L.Enqueuing(batch, expiresAt, at)]), [], None))
    case (Admitted(stream, batch), Collecting(_, open)) =>
      var (b, closed) := R.Add(CollectorOf(cfg), open, batch, at);
      Some(Effect(stage.(open := b), SendingParcel(stream, closed), None))
    case _ => None
  }

  // ---- Accounting ----

  /** `accepted` remembers every record as it was registered, and `pending` joins
      the dictionaries of all streams. `starting` counts calls of `put_record`
      between the semaphore and the registration. */
  datatype Ledger = Ledger(
    accepted: map<Ticket, Buffered>,
    pending: set<Ticket>,
    results: map<Ticket, RecordResult>,
    outstanding: int,
    permits: int,
    starting: int,
    nextId: nat)

  function Begin(l: Ledger): Ledger {
    l.(outstanding := l.outstanding + 1, permits := l.permits - 1, starting := l.starting + 1)
  }

  function Abort(l: Ledger): Ledger {
    l.(outstanding := l.outstanding - 1, permits := l.permits + 1, starting := l.starting - 1)
  }

  function Register(l: Ledger, stream: string, b: Buffered): Ledger {
    var t := Ticket(stream, l.nextId);
    l.(accepted := l.accepted[t := b], pending := l.pending + {t}, nextId := l.nextId + 1, starting := l.starting - 1)
  }

  /** `on_retrier_finish`: looks the record up among the pending ones of the
      stream it came back on, and counts down whether or not it is there. */
  function Finish(l: Ledger, t: Ticket, result: RecordResult): Ledger {
    var l' := l.(outstanding := l.outstanding - 1, permits := l.permits + 1);
    if t in l.pending then l'.(pending := l.pending - {t}, results := l.results[t := result]) else l'
  }

  // ---- The transition system ----

  datatype State = State(
    places: seq<Place>,
    maps: map<string, M.State>,
    ledger: Ledger,
    now: real)

  datatype Step =
    | Acquiring
    | Registering(stream: string, record: UserRecord, at: real)
    | Opening(key: Key, at: real)
    | Acting(i: nat, act: Act, at: real)
    | Handing(j: nat, i: nat, at: real)
    | Reporting(i: nat, at: real)
    | Mapping(stream: string, event: M.Event)

  function Initial(cfg: Config, now: real): State {
    State([], map[], Ledger(map[], {}, map[], 0, cfg.maxOutstanding, 0, 0), now)
  }

  function MapFor(cfg: Config, st: State, stream: string): M.State {
    if stream in st.maps then st.maps[stream] else M.Initial(cfg.shardMap, st.now)
  }

  function StreamOf(p: Place): string {
    if p.Done? then "" else p.stream
  }

  predicate HasStage(places: seq<Place>, key: Key) {
    exists i :: 0 <= i < |places| && KeyOf(places[i]) == Some(key)
  }

  function Settled(l: Ledger, finished: Option<(Ticket, RecordResult)>): Ledger {
    match finished
    case None => l
    case Some((t, result)) => Finish(l, t, result)
  }

  /** Place `i` changes as `e` says. */
  function Apply(st: State, i: nat, e: Effect, at: real): State
    requires i < |st.places|
  {
    st.(places := st.places[i := e.place] + e.more, ledger := Settled(st.ledger, e.finished), now := at)
  }

  /** The shard map of a stream has been ready once. `put_record` waits for that
      before it registers its first record. */
  predicate Started(cfg: Config, st: State, stream: string) {
    MapFor(cfg, st, stream).updatedAt.Some?
  }

  /** What happens to a shard map by itself: it is started once, with its
      pipeline; after that fetches fail or are installed and clean-ups run.
      Only answers invalidate it. */
  predicate Spontaneous(cfg: Config, st: State, stream: string, event: M.Event) {
    match event
    case Starting => MapFor(cfg, st, stream).status == M.Invalid
    case Invalidating(_, _) => false
    case _ => true
  }

  /** When an act is over: a drain reads the clock until then. */
  function EndOfAct(act: Act, at: real): real {
    if act.Draining? then act.until else at
  }

  /** A step that is not possible, or would go back in time, changes nothing. */
  function Exec(cfg: Config, st: State, step: Step): State {
    match step
    case Acquiring => if st.ledger.permits > 0 then st.(ledger := Begin(st.ledger)) else st
    case Registering(stream, record, at) =>
      if st.ledger.starting <= 0 || at < st.now || record.partitionKey == "" || !Started(cfg, st, stream) then st
      else (match BuildBuffered(cfg.codec, st.ledger.nextId, record, at, cfg.bufferedTime)
            case Err => st.(ledger := Abort(st.ledger), now := at)
            case Ok(b) => st.(places := st.places + [Registered(stream, b)], ledger := Register(st.ledger, stream, b),
                              now := at))
    case Opening(key, at) =>
      if at < st.now || HasStage(st.places, key) || (key.kind.CollectorKind? && key.shard.Some?) then st
      else st.(places := st.places + [NewStage(cfg, key, at)], now := at)
    case Acting(i, act, at) =>
      if i >= |st.places| || at < st.now || EndOfAct(act, at) < at then st
      else (match ActAt(cfg, MapFor(cfg, st, StreamOf(st.places[i])), st.places[i], act, at)
            case None => st
            case Some(e) => Apply(st, i, e, EndOfAct(act, at)))
    case Handing(j, i, at) =>
      if i >= |st.places| || j >= |st.places| || at < st.now then st
      else if Destination(st.places[j]).None? || Destination(st.places[j]) != KeyOf(st.places[i]) then st
      else (match HandTo(cfg, st.places[j], st.places[i], at)
            case None => st
            case Some(e) => Apply(st.(places := st.places[j := Done]), i, e, at))
    case Reporting(i, at) =>
      if i >= |st.places| || at < st.now || !st.places[i].Handling? || st.places[i].reports == [] then st
      else
        var p := st.places[i];
        var map' := M.Invalidate(cfg.shardMap, MapFor(cfg, st, p.stream), at, Some(p.reports[0]));
        st.(places := st.places[i := p.(reports := p.reports[1..])], maps := st.maps[p.stream := map'], now := at)
    case Mapping(stream, event) =>
      if !Spontaneous(cfg, st, stream, event) then st
      else st.(maps := st.maps[stream := M.Step(cfg.shardMap, MapFor(cfg, st, stream), event)])
  }

  function Run(cfg: Config, st: State, steps: seq<Step>): State {
    if steps == [] then st else Exec(cfg, Run(cfg, st, Front(steps)), Last(steps))
  }
}
