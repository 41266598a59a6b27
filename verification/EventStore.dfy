/**
 * The store's operations as the code runs them, on tables in memory: one transaction of
 * `appendToStream`, the retry loop around it, and the retention sweep. `AloneIsUninterrupted`
 * ties the transaction to the interleaved steps of `EventLog`.
 */
module EventStore {
  import opened EventLog
  import opened EventLogLaws

  /** How many catch-up projections must have a checkpoint before anything is pruned. */
  const CATCHUP_PROJECTIONS := 2

  datatype AppendResult = Landed(newVersion: int) | ConcurrencyError | InvalidEvent

  /** The rows one append adds: consecutive positions, consecutive versions. */
  function NewRows(lastSeq: nat, streamId: StreamId, expected: int, events: seq<Event>): seq<Row> {
    seq(|events|, k requires 0 <= k < |events| => Row(lastSeq + 1 + k, streamId, expected + 1 + k, events[k]))
  }

  ghost predicate AllValid(events: seq<Event>) {
    forall e :: e in events ==> e.valid
  }

  class EventStore {
    var lastSeq: nat
    var streams: map<StreamId, nat>
    var rows: seq<Row>

    constructor ()
      ensures Valid() && rows == [] && streams == map[] && lastSeq == 0
    {
      lastSeq, streams, rows := 0, map[], [];
    }

    /** No row is numbered above its stream's version row, or above the last position handed out. */
    ghost predicate Valid()
      reads this
    {
      && (forall r :: r in rows ==> r.version <= CurrentVersion(r.streamId) && 1 <= r.globalSeq <= lastSeq)
      && Ascending(rows)
    }

    function CurrentVersion(streamId: StreamId): nat
      reads `streams
    {
      if streamId in streams then streams[streamId] else 0
    }

    /** One transaction: nothing is kept unless the compare-and-set finds the expected version. */
    method AppendToStream(streamId: StreamId, expectedVersion: int, events: seq<Event>) returns (r: AppendResult)
      requires Valid()
      modifies this
      ensures Valid()
      ensures r == if events == [] then Landed(expectedVersion)
                   else if !AllValid(events) then InvalidEvent
                   else if old(CurrentVersion(streamId)) != expectedVersion then ConcurrencyError
                   else Landed(expectedVersion + |events|)
      ensures r.Landed? ==>
        && rows == old(rows) + NewRows(old(lastSeq), streamId, expectedVersion, events)
        && lastSeq == old(lastSeq) + |events|
        && streams == if events == [] then old(streams) else old(streams)[streamId := expectedVersion + |events|]
      ensures !r.Landed? ==> rows == old(rows) && streams == old(streams) && lastSeq == old(lastSeq)
    {
      if |events| == 0 {
        assert rows + [] == rows;
        return Landed(expectedVersion);
      }
      for i := 0 to |events|
        invariant AllValid(events[..i])
        invariant rows == old(rows) && streams == old(streams) && lastSeq == old(lastSeq)
      {
        if !events[i].valid { return InvalidEvent; }
        assert events[..i + 1] == events[..i] + [events[i]];
      }
      assert events[..|events|] == events;

      if (if streamId in streams then streams[streamId] != expectedVersion else expectedVersion != 0) {
        return ConcurrencyError;
      }
      var inserted: seq<Row> := [];
      var version := expectedVersion;
      for i := 0 to |events|
        invariant version == expectedVersion + i && lastSeq == old(lastSeq) + i
        invariant rows == old(rows) && streams == old(streams)
        invariant inserted == NewRows(old(lastSeq), streamId, expectedVersion, events[..i])
      {
        version := version + 1;
        lastSeq := lastSeq + 1;
        assert !Taken(rows + inserted, streamId, version);
        inserted := inserted + [Row(lastSeq, streamId, version, events[i])];
      }
      assert events[..|events|] == events;
      NewRowsExtend(rows, old(lastSeq), streamId, expectedVersion, events);
      rows := rows + inserted;
      streams := streams[streamId := version];
      r := Landed(version);
    }

    /** The retry loop: a fresh version and freshly built events for every attempt. */
    method AppendWithRetry(request: Request) returns (r: AppendResult)
      requires Valid()
      modifies this
      ensures Valid()
      ensures var current := old(CurrentVersion(request.streamId));
        var expected, events := request.expectedOf(current), request.build(current);
        && r == (if events == [] then Landed(expected)
                 else if !AllValid(events) then InvalidEvent
                 else if expected != current then ConcurrencyError
                 else Landed(current + |events|))
        && rows == old(rows) + (if r.Landed? then NewRows(old(lastSeq), request.streamId, expected, events) else [])
        && lastSeq == old(lastSeq) + (if r.Landed? then |events| else 0)
        && streams == (if r.Landed? && events != [] then old(streams)[request.streamId := current + |events|] else old(streams))
    {
      var attempt := 0;
      while true
        invariant Valid() && rows == old(rows) && streams == old(streams) && lastSeq == old(lastSeq)
        invariant attempt <= request.maxRetries
        decreases request.maxRetries - attempt
      {
        var current := CurrentVersion(request.streamId);
        var expected := request.expectedOf(current);
        var events := request.build(current);
        r := AppendToStream(request.streamId, expected, events);
        if r != ConcurrencyError || attempt >= request.maxRetries { break; }
        attempt := attempt + 1;
      }
      if !r.Landed? { assert rows + [] == rows; }
    }

    /** Rows at or below the smallest checkpoint less the margin go; a missing checkpoint keeps all. */
    method PruneEventLog(checkpoints: seq<nat>, retentionMargin: int) returns (deleted: nat)
      requires Valid()
      modifies `rows
      ensures Valid()
      ensures forall r :: r in rows <==>
        (r in old(rows) && (|checkpoints| < 2 || Needed(r, checkpoints, retentionMargin)))
      ensures deleted == |old(rows)| - |rows|
    {
      deleted := 0;
      if |checkpoints| < CATCHUP_PROJECTIONS { return; }
      var watermark := checkpoints[0];
      for i := 1 to |checkpoints|
        invariant watermark in checkpoints
        invariant forall j :: 0 <= j < i ==> watermark <= checkpoints[j]
      {
        if checkpoints[i] < watermark { watermark := checkpoints[i]; }
      }
      var cutoff := watermark - Margin(retentionMargin);
      AfterMembers(rows, if cutoff > 0 then cutoff else 0);
      forall r | r in rows ensures Needed(r, checkpoints, retentionMargin) <==> r.globalSeq > cutoff {
        assert r.globalSeq > cutoff ==> watermark in checkpoints;
      }
      if cutoff <= 0 { return; }
      AfterAscending(rows, cutoff);
      AfterIsNoLonger(rows, cutoff);
      deleted := |rows| - |After(rows, cutoff)|;
      rows := After(rows, cutoff);
    }
  }

  /** Some projection is not yet `Margin` rows past it. */
  ghost predicate Needed(r: Row, checkpoints: seq<nat>, retentionMargin: int) {
    exists c :: c in checkpoints && r.globalSeq > c - Margin(retentionMargin)
  }

  function Margin(retentionMargin: int): nat {
    if retentionMargin > 0 then retentionMargin else 0
  }

  lemma {:induction false} AfterIsNoLonger(rows: seq<Row>, from: nat)
    ensures |After(rows, from)| <= |rows|
  {
    if rows != [] { AfterIsNoLonger(rows[1..], from); }
  }

  lemma NewRowsExtend(rows: seq<Row>, lastSeq: nat, streamId: StreamId, expected: int, events: seq<Event>)
    requires Ascending(rows) && forall r :: r in rows ==> r.globalSeq <= lastSeq
    ensures Ascending(rows + NewRows(lastSeq, streamId, expected, events))
  {
    LongerLogInOrder(rows, NewRows(lastSeq, streamId, expected, events));
  }

  // ----- The transaction, statement by statement --------------------------------------------

  function Inserts(id: WriterId, n: nat): seq<Action> {
    if n == 0 then [CommitAll(id)] else [Insert(id)] + Inserts(id, n - 1)
  }

  lemma NoRows(lastSeq: nat, streamId: StreamId, expected: int)
    ensures NewRows(lastSeq, streamId, expected, []) == []
  {
  }

  /** The rows to come, with the next one already pending. */
  lemma OneRowMore(lastSeq: nat, streamId: StreamId, expected: int, pending: seq<Row>, events: seq<Event>)
    requires |pending| < |events|
    ensures var row := Row(lastSeq + 1, streamId, expected + |pending| + 1, events[|pending|]);
      pending + NewRows(lastSeq, streamId, expected + |pending|, events[|pending|..])
      == (pending + [row]) + NewRows(lastSeq + 1, streamId, expected + |pending| + 1, events[|pending| + 1..])
  {
  }

  lemma {:induction false} InsertsRun(s: State, id: WriterId)
    requires Inv(s) && id in s.writers && s.writers[id].phase.Inserting?
    ensures var w := s.writers[id];
      var current, pending, events := w.phase.current, w.phase.pending, Events(w, w.phase.current);
      && |pending| <= |events|
      && var t := Run(s, Inserts(id, |events| - |pending|));
         && t.rows == s.rows + (pending + NewRows(s.lastSeq, w.request.streamId, Expected(w, current) + |pending|, events[|pending|..]))
         && t.lastSeq == s.lastSeq + (|events| - |pending|)
         && t.streams == s.streams[w.request.streamId := Version(s, w.request.streamId) + |events|]
         && t.lock == None && id in t.writers && t.writers[id] == w.(phase := Appended(current, |s.commits|))
    decreases |Events(s.writers[id], s.writers[id].phase.current)| - |s.writers[id].phase.pending|
  {
    hide Inv, Taken, Conflict, NewRows;
    var w := s.writers[id];
    InsertingFacts(s, id);
    var current, pending, events := w.phase.current, w.phase.pending, Events(w, w.phase.current);
    var n := |events| - |pending|;
    if n == 0 {
      assert Run(s, Inserts(id, 0)) == Run(Step(s, CommitAll(id)), []);
      assert events[|pending|..] == [];
      NoRows(s.lastSeq, w.request.streamId, Expected(w, current) + |pending|);
      assert pending + [] == pending;
    } else {
      BackstopNeverFires(s, id);
      var next := Step(s, Insert(id));
      StepKeeps(s, Insert(id));
      var row := Row(s.lastSeq + 1, w.request.streamId, Expected(w, current) + |pending| + 1, events[|pending|]);
      assert next.writers[id].phase.pending == pending + [row];
      InsertsRun(next, id);
      assert Run(s, Inserts(id, n)) == Run(next, Inserts(id, n - 1)) by {
        assert Inserts(id, n)[1..] == Inserts(id, n - 1);
      }
      OneRowMore(s.lastSeq, w.request.streamId, Expected(w, current), pending, events);
    }
  }

  lemma InsertingFacts(s: State, id: WriterId)
    requires Inv(s) && id in s.writers && s.writers[id].phase.Inserting?
    ensures var w := s.writers[id];
      && |w.phase.pending| <= |Events(w, w.phase.current)|
      && Expected(w, w.phase.current) == Version(s, w.request.streamId)
  {
    assert WriterSound(s, id);
  }

  /** Left alone, the steps of one attempt do to the tables what `AppendToStream` does. */
  lemma AloneIsUninterrupted(s: State, id: WriterId)
    requires Inv(s) && id in s.writers && s.writers[id].phase.Ready? && s.lock == None
    ensures var w := s.writers[id];
      var current, stream := w.phase.current, w.request.streamId;
      var t := Run(s, [TakeLock(id), CompareAndSet(id)] + Inserts(id, |Events(w, current)|));
      if Version(s, stream) == Expected(w, current) then
        && t.rows == s.rows + NewRows(s.lastSeq, stream, Expected(w, current), Events(w, current))
        && t.lastSeq == s.lastSeq + |Events(w, current)|
        && t.streams == s.streams[stream := Version(s, stream) + |Events(w, current)|]
        && t.lock == None && id in t.writers && t.writers[id].phase == Appended(current, |s.commits|)
      else
        t.rows == s.rows && t.streams == s.streams && t.lastSeq == s.lastSeq && t.lock == None
        && id in t.writers && (t.writers[id].phase.Loading? || t.writers[id].phase.GaveUp?)
  {
    hide Inv, Inserts;
    var w := s.writers[id];
    var current := w.phase.current;
    var script := Inserts(id, |Events(w, current)|);
    var locked := Step(s, TakeLock(id));
    var tried := Step(locked, CompareAndSet(id));
    StepKeeps(s, TakeLock(id));
    StepKeeps(locked, CompareAndSet(id));
    var whole := [TakeLock(id), CompareAndSet(id)] + script;
    assert whole[1..] == [CompareAndSet(id)] + script && whole[1..][1..] == script;
    assert Run(s, whole) == Run(tried, script);
    if Version(s, w.request.streamId) == Expected(w, current) {
      InsertsRun(tried, id);
      assert Events(w, current)[0..] == Events(w, current);
    } else {
      NothingInserts(tried, id, |Events(w, current)|);
    }
  }

  lemma {:induction false} NothingInserts(s: State, id: WriterId, n: nat)
    requires id in s.writers && (s.writers[id].phase.Loading? || s.writers[id].phase.GaveUp?)
    ensures Run(s, Inserts(id, n)) == s
    decreases n
  {
    if n == 0 {
      assert Run(s, [CommitAll(id)]) == Run(Step(s, CommitAll(id)), []);
    } else {
      NothingInserts(s, id, n - 1);
      assert Inserts(id, n)[1..] == Inserts(id, n - 1);
    }
  }
}
