/**
 * The append log of `packages/event-store/src/store.ts` with its catch-up readers and the
 * retention sweep of `packages/api/src/sim/retention.ts`, as one interleaved step system.
 * Every step is one database statement of one process; between two steps any other may run.
 */
module EventLog {
  type StreamId = string
  type WriterId = nat

  datatype Option<T> = None | Some(value: T)

  datatype Event = Event(eventType: string, payload: string, valid: bool)

  datatype Row = Row(globalSeq: nat, streamId: StreamId, version: int, event: Event)

  /** One call of `appendWithRetry`. */
  datatype Request = Request(streamId: StreamId, build: nat -> seq<Event>, expectedOf: nat -> int, maxRetries: nat)

  /** Where a writer stands; `current` is the version its `build` was given in this attempt. */
  datatype Phase =
    | Loading
    | Ready(current: nat)
    | Locked(current: nat)
    | Inserting(current: nat, pending: seq<Row>)
    | Appended(current: nat, at: nat)
    | NothingToAppend(current: nat)
    | GaveUp
    | Rejected
    | Crashed

  datatype Writer = Writer(request: Request, attempt: nat, phase: Phase)

  datatype Projection = AuditTimeline | GeoTrack

  /** A catch-up projection: its checkpoint row, its read model, and the batch of the pass under way. */
  datatype Reader = Reader(checkpoint: Option<nat>, table: seq<Row>, batch: seq<Row>, written: bool)

  datatype Commit = Commit(writer: WriterId, rows: seq<Row>)

  /**
   * `rows` is the `events` table, `commits` the transactions in commit order, `swept` the highest
   * cutoff deleted so far and `sweep` a cutoff that has been computed but not yet applied.
   */
  datatype State = State(
    lastSeq: nat,
    streams: map<StreamId, nat>,
    rows: seq<Row>,
    lock: Option<WriterId>,
    writers: map<WriterId, Writer>,
    audit: Reader,
    geo: Reader,
    sweep: Option<nat>,
    swept: nat,
    commits: seq<Commit>)

  datatype Action =
    | Start(writer: WriterId, request: Request)
    | Load(writer: WriterId)
    | TakeLock(writer: WriterId)
    | CompareAndSet(writer: WriterId)
    | Insert(writer: WriterId)
    | CommitAll(writer: WriterId)
    | Fail(writer: WriterId)
    | StartPass(projection: Projection)
    | Upsert(projection: Projection)
    | Advance(projection: Projection)
    | Restart(projection: Projection)
    | ReadWatermark(margin: int)
    | DeleteSwept

  const NEW_READER := Reader(None, [], [], false)
  const EMPTY := State(0, map[], [], None, map[], NEW_READER, NEW_READER, None, 0, [])

  // ----- Reading -----------------------------------------------------------------------

  function Version(s: State, stream: StreamId): nat {
    if stream in s.streams then s.streams[stream] else 0
  }

  function After(rows: seq<Row>, from: nat): seq<Row> {
    if rows == [] then []
    else if rows[0].globalSeq > from then [rows[0]] + After(rows[1..], from)
    else After(rows[1..], from)
  }

  function InsertBySeq(row: Row, sorted: seq<Row>): seq<Row> {
    if sorted == [] || row.globalSeq <= sorted[0].globalSeq then [row] + sorted
    else [sorted[0]] + InsertBySeq(row, sorted[1..])
  }

  function SortBySeq(rows: seq<Row>): seq<Row> {
    if rows == [] then [] else InsertBySeq(rows[0], SortBySeq(rows[1..]))
  }

  /** The rows strictly after `from`, in `global_seq` order. */
  function ReadAll(s: State, from: nat): seq<Row> {
    SortBySeq(After(s.rows, from))
  }

  // ----- The writer's statements --------------------------------------------------------

  function Events(w: Writer, current: nat): seq<Event> { w.request.build(current) }

  function Expected(w: Writer, current: nat): int { w.request.expectedOf(current) }

  function To(s: State, w: WriterId, phase: Phase): State
    requires w in s.writers
  {
    s.(writers := s.writers[w := s.writers[w].(phase := phase)])
  }

  /** A conflict rolls the transaction back; the retry loop reloads until its retries are spent. */
  function Conflict(s: State, w: WriterId): State
    requires w in s.writers
  {
    var writer := s.writers[w];
    var next := if writer.attempt < writer.request.maxRetries
                then writer.(attempt := writer.attempt + 1, phase := Loading)
                else writer.(phase := GaveUp);
    s.(lock := None, writers := s.writers[w := next])
  }

  function LoadVersion(s: State, w: WriterId): State
    requires w in s.writers
  {
    var writer := s.writers[w];
    var current := Version(s, writer.request.streamId);
    var events := Events(writer, current);
    if events == [] then To(s, w, NothingToAppend(current))
    else if exists e :: e in events && !e.valid then To(s, w, Rejected)
    else To(s, w, Ready(current))
  }

  /** The conditional update finds a row: the stream's, or the fresh one claimed for version 0. */
  predicate CasSucceeds(s: State, stream: StreamId, expected: int) {
    if stream in s.streams then s.streams[stream] == expected else expected == 0
  }

  predicate Taken(rows: seq<Row>, stream: StreamId, version: int) {
    exists r :: r in rows && r.streamId == stream && r.version == version
  }

  function InsertOne(s: State, w: WriterId): State
    requires w in s.writers && s.writers[w].phase.Inserting?
    requires |s.writers[w].phase.pending| < |Events(s.writers[w], s.writers[w].phase.current)|
  {
    var writer := s.writers[w];
    var phase := writer.phase;
    var n := |phase.pending|;
    var version := Expected(writer, phase.current) + n + 1;
    var drawn := s.(lastSeq := s.lastSeq + 1);
    if Taken(s.rows + phase.pending, writer.request.streamId, version) then Conflict(drawn, w)
    else
      var row := Row(s.lastSeq + 1, writer.request.streamId, version, Events(writer, phase.current)[n]);
      To(drawn, w, phase.(pending := phase.pending + [row]))
  }

  function CommitPending(s: State, w: WriterId): State
    requires w in s.writers && s.writers[w].phase.Inserting?
  {
    var writer := s.writers[w];
    var phase := writer.phase;
    var reached := Expected(writer, phase.current) + |phase.pending|;
    To(s.(rows := s.rows + phase.pending,
          streams := s.streams[writer.request.streamId := if reached >= 0 then reached else 0],
          lock := None,
          commits := s.commits + [Commit(w, phase.pending)]),
       w, Appended(phase.current, |s.commits|))
  }

  predicate InTransaction(phase: Phase) {
    phase.Locked? || phase.Inserting?
  }

  // ----- The reader's statements ----------------------------------------------------------

  function ReaderOf(s: State, p: Projection): Reader {
    match p case AuditTimeline => s.audit case GeoTrack => s.geo
  }

  function WithReader(s: State, p: Projection, r: Reader): State {
    match p case AuditTimeline => s.(audit := r) case GeoTrack => s.(geo := r)
  }

  function LastSeq(r: Reader): nat {
    if r.checkpoint.Some? then r.checkpoint.value else 0
  }

  /** An upsert keyed by `global_seq`. */
  function Upserted(table: seq<Row>, row: Row): seq<Row> {
    if table == [] then [row]
    else if table[0].globalSeq == row.globalSeq then [row] + table[1..]
    else [table[0]] + Upserted(table[1..], row)
  }

  // ----- The retention sweep ----------------------------------------------------------------

  /** Zero until every catch-up projection has a checkpoint, then the smallest of them. */
  function Watermark(s: State): nat {
    if s.audit.checkpoint.None? || s.geo.checkpoint.None? then 0
    else if s.audit.checkpoint.value < s.geo.checkpoint.value then s.audit.checkpoint.value
    else s.geo.checkpoint.value
  }

  function Cutoff(s: State, margin: int): int {
    Watermark(s) - if margin > 0 then margin else 0
  }

  // ----- Steps and runs ---------------------------------------------------------------------

  predicate Enabled(s: State, a: Action) {
    match a
    case Start(w, _) => w !in s.writers
    case Load(w) => w in s.writers && s.writers[w].phase.Loading?
    case TakeLock(w) => w in s.writers && s.writers[w].phase.Ready? && s.lock.None?
    case CompareAndSet(w) => w in s.writers && s.writers[w].phase.Locked?
    case Insert(w) =>
      && w in s.writers && s.writers[w].phase.Inserting?
      && |s.writers[w].phase.pending| < |Events(s.writers[w], s.writers[w].phase.current)|
    case CommitAll(w) =>
      && w in s.writers && s.writers[w].phase.Inserting?
      && |s.writers[w].phase.pending| == |Events(s.writers[w], s.writers[w].phase.current)|
    case Fail(w) => w in s.writers && InTransaction(s.writers[w].phase)
    case StartPass(p) => ReaderOf(s, p).batch == []
    case Upsert(p) => ReaderOf(s, p).batch != [] && !ReaderOf(s, p).written
    case Advance(p) => ReaderOf(s, p).batch != [] && ReaderOf(s, p).written
    case Restart(_) => true
    case ReadWatermark(margin) => Cutoff(s, margin) > 0
    case DeleteSwept => s.sweep.Some?
  }

  function WriterStep(s: State, a: Action): State
    requires Enabled(s, a)
    requires a.Start? || a.Load? || a.TakeLock? || a.CompareAndSet? || a.Insert? || a.CommitAll? || a.Fail?
  {
    match a
    case Start(w, request) => s.(writers := s.writers[w := Writer(request, 0, Loading)])
    case Load(w) => LoadVersion(s, w)
    case TakeLock(w) => To(s.(lock := Some(w)), w, Locked(s.writers[w].phase.current))
    case CompareAndSet(w) =>
      var current := s.writers[w].phase.current;
      if CasSucceeds(s, s.writers[w].request.streamId, Expected(s.writers[w], current))
      then To(s, w, Inserting(current, []))
      else Conflict(s, w)
    case Insert(w) => InsertOne(s, w)
    case CommitAll(w) => CommitPending(s, w)
    case Fail(w) => To(s.(lock := None), w, Crashed)
  }

  function ReaderStep(s: State, a: Action): Reader
    requires Enabled(s, a) && (a.StartPass? || a.Upsert? || a.Advance? || a.Restart?)
  {
    var r := ReaderOf(s, a.projection);
    match a
    case StartPass(_) => r.(batch := ReadAll(s, LastSeq(r)), written := false)
    case Upsert(_) => r.(table := Upserted(r.table, r.batch[0]), written := true)
    case Advance(_) => r.(checkpoint := Some(r.batch[0].globalSeq), batch := r.batch[1..], written := false)
    case Restart(_) => r.(batch := [], written := false)
  }

  function Step(s: State, a: Action): State {
    if !Enabled(s, a) then s
    else
      match a
      case StartPass(p) => WithReader(s, p, ReaderStep(s, a))
      case Upsert(p) => WithReader(s, p, ReaderStep(s, a))
      case Advance(p) => WithReader(s, p, ReaderStep(s, a))
      case Restart(p) => WithReader(s, p, ReaderStep(s, a))
      case ReadWatermark(margin) => s.(sweep := Some(Cutoff(s, margin)))
      case DeleteSwept =>
        var cutoff := s.sweep.value;
        s.(rows := After(s.rows, cutoff), sweep := None, swept := if cutoff > s.swept then cutoff else s.swept)
      case _ => WriterStep(s, a)
  }

  function Run(s: State, actions: seq<Action>): State
    decreases actions
  {
    if actions == [] then s else Run(Step(s, actions[0]), actions[1..])
  }

  /** Every row ever committed, in commit order. */
  function History(commits: seq<Commit>): seq<Row> {
    if commits == [] then [] else History(commits[..|commits| - 1]) + commits[|commits| - 1].rows
  }

  function StreamRows(history: seq<Row>, stream: StreamId): seq<Row> {
    if history == [] then []
    else
      var before, last := StreamRows(history[..|history| - 1], stream), history[|history| - 1];
      if last.streamId == stream then before + [last] else before
  }
}
