/**
 * What every interleaving of `EventLog` keeps: commit order is `global_seq` order, streams are
 * numbered without gaps, appends are all or nothing, and catch-up readers miss and repeat nothing,
 * whether or not the log is being pruned under them.
 */
module EventLogLaws {
  import opened EventLog

  // ----- The invariant ------------------------------------------------------------------

  ghost predicate Ascending(rows: seq<Row>) {
    forall i, j :: 0 <= i < j < |rows| ==> rows[i].globalSeq < rows[j].globalSeq
  }

  ghost predicate LogInOrder(s: State) {
    var h := History(s.commits);
    Ascending(h) && forall r :: r in h ==> 1 <= r.globalSeq <= s.lastSeq
  }

  /** The table holds everything committed above the sweep. */
  ghost predicate Retained(s: State) {
    s.rows == After(History(s.commits), s.swept)
  }

  /** Both projections have checkpointed everything up to `seq`. */
  ghost predicate Covered(s: State, seqNo: nat) {
    seqNo == 0 || forall p :: ReaderOf(s, p).checkpoint.Some? && seqNo <= ReaderOf(s, p).checkpoint.value
  }

  ghost predicate SweepIsSafe(s: State) {
    Covered(s, s.swept) && (s.sweep.Some? ==> Covered(s, s.sweep.value))
  }

  /** The stream's events are versioned 1, 2, 3, ... up to its version row. */
  ghost predicate Numbered(s: State, stream: StreamId) {
    var mine := StreamRows(History(s.commits), stream);
    |mine| == Version(s, stream) && forall k :: 0 <= k < |mine| ==> mine[k].version == k + 1
  }

  ghost predicate StreamsNumbered(s: State) {
    forall stream :: Numbered(s, stream)
  }

  /** The rows of one append: the built events, on top of the expected version, in order. */
  ghost predicate RowsOf(w: Writer, current: nat, rows: seq<Row>) {
    && |rows| <= |Events(w, current)|
    && forall k :: 0 <= k < |rows| ==>
         && rows[k].streamId == w.request.streamId
         && rows[k].version == Expected(w, current) + k + 1
         && rows[k].event == Events(w, current)[k]
  }

  ghost predicate Unseen(s: State, rows: seq<Row>) {
    && Ascending(rows)
    && (forall k :: 0 <= k < |rows| ==> 1 <= rows[k].globalSeq <= s.lastSeq)
    && (forall k, r :: 0 <= k < |rows| && r in History(s.commits) ==> r.globalSeq < rows[k].globalSeq)
  }

  ghost predicate Buildable(s: State, w: Writer, current: nat) {
    && Events(w, current) != []
    && (forall e :: e in Events(w, current) ==> e.valid)
    && current <= Version(s, w.request.streamId)
  }

  ghost predicate WriterSound(s: State, id: WriterId)
    requires id in s.writers
  {
    var w := s.writers[id];
    && w.attempt <= w.request.maxRetries
    && (InTransaction(w.phase) <==> s.lock == Some(id))
    && match w.phase
       case Ready(current) => Buildable(s, w, current)
       case Locked(current) => Buildable(s, w, current)
       case Inserting(current, pending) =>
         && Buildable(s, w, current)
         && Expected(w, current) == Version(s, w.request.streamId)
         && RowsOf(w, current, pending) && Unseen(s, pending)
       case Appended(current, at) =>
         && at < |s.commits| && s.commits[at].writer == id
         && |s.commits[at].rows| == |Events(w, current)| > 0
         && (forall e :: e in Events(w, current) ==> e.valid)
         && RowsOf(w, current, s.commits[at].rows)
       case _ => true
  }

  ghost predicate WritersSound(s: State) {
    && (s.lock.Some? ==> s.lock.value in s.writers)
    && forall id :: id in s.writers ==> WriterSound(s, id)
  }

  /** Every commit belongs to the one writer that reported it: a failed append left nothing. */
  ghost predicate CommitsOwned(s: State) {
    forall i :: 0 <= i < |s.commits| ==> OwnedCommit(s, i)
  }

  ghost predicate OwnedCommit(s: State, i: nat)
    requires i < |s.commits|
  {
    var id := s.commits[i].writer;
    id in s.writers && s.writers[id].phase.Appended? && s.writers[id].phase.at == i
  }

  /** A reader whose first `c` rows are checkpointed; the next may already be in its table. */
  ghost predicate ReaderAt(h: seq<Row>, r: Reader, c: nat) {
    && c <= |h|
    && (if c == 0 then LastSeq(r) == 0 else r.checkpoint == Some(h[c - 1].globalSeq))
    && (r.table == h[..c] || (c < |h| && r.table == h[..c + 1]))
    && c + |r.batch| <= |h| && r.batch == h[c..c + |r.batch|]
    && (r.written ==> r.batch != [] && r.table == h[..c + 1])
  }

  ghost predicate ReaderFollows(s: State, p: Projection) {
    exists c: nat :: ReaderAt(History(s.commits), ReaderOf(s, p), c)
  }

  ghost predicate Inv(s: State) {
    && LogInOrder(s) && Retained(s) && SweepIsSafe(s) && StreamsNumbered(s)
    && WritersSound(s) && CommitsOwned(s)
    && forall p :: ReaderFollows(s, p)
  }

  // ----- Reading an ordered log ------------------------------------------------------------

  lemma {:induction false} AfterMembers(rows: seq<Row>, from: nat)
    ensures forall r :: r in After(rows, from) <==> r in rows && r.globalSeq > from
  {
    if rows != [] {
      AfterMembers(rows[1..], from);
      assert rows == [rows[0]] + rows[1..];
    }
  }

  lemma {:induction false} AfterAll(rows: seq<Row>, from: nat)
    requires forall r :: r in rows ==> r.globalSeq > from
    ensures After(rows, from) == rows
  {
    if rows != [] {
      assert rows[0] in rows;
      AfterAll(rows[1..], from);
    }
  }

  /** In an ordered log, what lies after row `c` is the tail from `c`. */
  lemma {:induction false} AfterCut(h: seq<Row>, c: nat, from: nat)
    requires Ascending(h) && c <= |h|
    requires c > 0 ==> h[c - 1].globalSeq <= from
    requires c < |h| ==> h[c].globalSeq > from
    ensures After(h, from) == h[c..]
  {
    if c == 0 {
      forall r | r in h ensures r.globalSeq > from {
        var i :| 0 <= i < |h| && h[i] == r;
        assert i == 0 || h[0].globalSeq < h[i].globalSeq;
      }
      AfterAll(h, from);
      assert h[0..] == h;
    } else {
      assert c == 1 || h[0].globalSeq < h[c - 1].globalSeq;
      AfterCut(h[1..], c - 1, from);
      assert h[1..][c - 1..] == h[c..];
    }
  }

  lemma {:induction false} AfterTwice(h: seq<Row>, low: nat, high: nat)
    ensures After(After(h, low), high) == After(h, if low > high then low else high)
  {
    if h != [] {
      AfterTwice(h[1..], low, high);
      if h[0].globalSeq > low {
        assert ([h[0]] + After(h[1..], low))[1..] == After(h[1..], low);
      }
    }
  }

  lemma {:induction false} AfterSum(a: seq<Row>, b: seq<Row>, from: nat)
    ensures After(a + b, from) == After(a, from) + After(b, from)
  {
    if a == [] {
      assert a + b == b;
    } else {
      AfterSum(a[1..], b, from);
      assert (a + b)[1..] == a[1..] + b && (a + b)[0] == a[0];
      assert [a[0]] + (After(a[1..], from) + After(b, from)) == ([a[0]] + After(a[1..], from)) + After(b, from);
    }
  }

  lemma {:induction false} AfterAscending(h: seq<Row>, from: nat)
    requires Ascending(h)
    ensures Ascending(After(h, from))
  {
    if h != [] {
      AfterAscending(h[1..], from);
      AfterMembers(h[1..], from);
      var rest := After(h[1..], from);
      forall k | 0 <= k < |rest| ensures h[0].globalSeq < rest[k].globalSeq {
        assert rest[k] in h[1..];
        var i :| 0 <= i < |h[1..]| && h[1..][i] == rest[k];
        assert h[0].globalSeq < h[i + 1].globalSeq;
      }
    }
  }

  lemma {:induction false} SortOfAscending(rows: seq<Row>)
    requires Ascending(rows)
    ensures SortBySeq(rows) == rows
  {
    if rows != [] {
      SortOfAscending(rows[1..]);
      if |rows| > 1 { assert rows[0].globalSeq < rows[1].globalSeq; }
    }
  }

  /** What a reader at `c` reads is the rest of the history, pruned or not. */
  lemma ReadAllIsTheRest(s: State, p: Projection, c: nat)
    requires LogInOrder(s) && Retained(s) && SweepIsSafe(s)
    requires ReaderAt(History(s.commits), ReaderOf(s, p), c)
    ensures ReadAll(s, LastSeq(ReaderOf(s, p))) == History(s.commits)[c..]
  {
    var h, from := History(s.commits), LastSeq(ReaderOf(s, p));
    AfterTwice(h, s.swept, from);
    if c < |h| {
      assert h[c] in h;
      if c > 0 { assert h[c - 1].globalSeq < h[c].globalSeq; }
    }
    AfterCut(h, c, from);
    assert s.swept <= from;
    AfterAscending(h, from);
    SortOfAscending(After(h, from));
  }

  // ----- Commits extend the history ------------------------------------------------------------

  lemma HistoryOfLonger(commits: seq<Commit>, c: Commit)
    ensures History(commits + [c]) == History(commits) + c.rows
  {
    assert (commits + [c])[..|commits|] == commits;
  }

  lemma {:induction false} StreamRowsOfSum(a: seq<Row>, b: seq<Row>, stream: StreamId)
    ensures StreamRows(a + b, stream) == StreamRows(a, stream) + StreamRows(b, stream)
  {
    if b == [] {
      assert a + b == a;
    } else {
      StreamRowsOfSum(a, b[..|b| - 1], stream);
      assert (a + b)[..|a + b| - 1] == a + b[..|b| - 1];
    }
  }

  lemma {:induction false} AllOfOneStream(rows: seq<Row>, mine: StreamId, stream: StreamId)
    requires forall r :: r in rows ==> r.streamId == mine
    ensures StreamRows(rows, stream) == if stream == mine then rows else []
  {
    if rows != [] {
      AllOfOneStream(rows[..|rows| - 1], mine, stream);
      assert rows[|rows| - 1] in rows;
      assert rows[..|rows| - 1] + [rows[|rows| - 1]] == rows;
    }
  }

  lemma {:induction false} StreamRowsAreRows(h: seq<Row>, stream: StreamId)
    ensures forall r :: r in StreamRows(h, stream) <==> r in h && r.streamId == stream
  {
    if h != [] {
      StreamRowsAreRows(h[..|h| - 1], stream);
      assert h[..|h| - 1] + [h[|h| - 1]] == h;
    }
  }

  lemma LongerLogInOrder(h: seq<Row>, more: seq<Row>)
    requires Ascending(h) && Ascending(more)
    requires forall k, r :: 0 <= k < |more| && r in h ==> r.globalSeq < more[k].globalSeq
    ensures Ascending(h + more)
  {
    forall i, j | 0 <= i < j < |h + more| ensures (h + more)[i].globalSeq < (h + more)[j].globalSeq {
      if i < |h| <= j { assert h[i] in h; }
    }
  }

  lemma ReaderAtLonger(h: seq<Row>, more: seq<Row>, r: Reader, c: nat)
    requires ReaderAt(h, r, c)
    ensures ReaderAt(h + more, r, c)
  {
    assert (h + more)[..c] == h[..c];
    assert c < |h| ==> (h + more)[..c + 1] == h[..c + 1];
    assert (h + more)[c..c + |r.batch|] == h[c..c + |r.batch|];
  }

  lemma NumberedAfterCommit(s: State, t: State, stream: StreamId, w: Writer, current: nat, rows: seq<Row>)
    requires Numbered(s, stream) && Numbered(s, w.request.streamId)
    requires RowsOf(w, current, rows) && Expected(w, current) == Version(s, w.request.streamId)
    requires History(t.commits) == History(s.commits) + rows
    requires t.streams == s.streams[w.request.streamId := Version(s, w.request.streamId) + |rows|]
    ensures Numbered(t, stream)
  {
    var mine := w.request.streamId;
    var before := StreamRows(History(s.commits), stream);
    StreamRowsOfSum(History(s.commits), rows, stream);
    assert forall r :: r in rows ==> r.streamId == mine;
    AllOfOneStream(rows, mine, stream);
    hide History, StreamRows, RowsOf;
    assert StreamRows(History(t.commits), stream) == before + (if stream == mine then rows else []);
    if stream == mine {
      NumbersContinue(before, w, current, rows);
      assert Version(t, stream) == |before + rows|;
    } else {
      assert before + [] == before;
      assert Version(t, stream) == Version(s, stream);
    }
  }

  lemma NumbersContinue(before: seq<Row>, w: Writer, current: nat, rows: seq<Row>)
    requires RowsOf(w, current, rows) && Expected(w, current) == |before|
    requires forall k :: 0 <= k < |before| ==> before[k].version == k + 1
    ensures forall k :: 0 <= k < |before + rows| ==> (before + rows)[k].version == k + 1
  {
    forall k | 0 <= k < |before + rows| ensures (before + rows)[k].version == k + 1 {
      if k >= |before| { assert rows[k - |before|].version == Expected(w, current) + (k - |before|) + 1; }
    }
  }

  // ----- Every step keeps the invariant --------------------------------------------------------------

  /** The other writers only see the counter, the version rows and the log grow. */
  lemma OthersStaySound(s: State, t: State, id: WriterId)
    requires id in s.writers && WriterSound(s, id)
    requires id in t.writers && t.writers[id] == s.writers[id]
    requires s.lastSeq <= t.lastSeq && History(t.commits) == History(s.commits)
    requires s.commits == t.commits && s.streams == t.streams
    requires (s.lock == Some(id)) == (t.lock == Some(id))
    ensures WriterSound(t, id)
  {
    hide RowsOf, History;
  }

  ghost predicate SameLog(s: State, t: State) {
    && t.rows == s.rows && t.streams == s.streams && t.commits == s.commits && t.swept == s.swept
    && t.sweep == s.sweep && t.audit == s.audit && t.geo == s.geo && s.lastSeq <= t.lastSeq
  }

  lemma SameLogKeepsTheRest(s: State, t: State)
    requires Inv(s) && SameLog(s, t)
    ensures LogInOrder(t) && Retained(t) && SweepIsSafe(t) && StreamsNumbered(t) && forall p :: ReaderFollows(t, p)
  {
    hide History, After, StreamRows, ReaderAt;
    forall p ensures ReaderFollows(t, p) { assert ReaderFollows(s, p); assert ReaderOf(s, p) == ReaderOf(t, p); }
    forall stream ensures Numbered(t, stream) { assert Numbered(s, stream); }
    assert forall p :: ReaderOf(s, p) == ReaderOf(t, p);
  }

  /** What `QuietStep` asks of a step: the log as it was, and only this writer changed. */
  ghost predicate OnlyWriter(s: State, t: State, id: WriterId) {
    && SameLog(s, t)
    && t.writers.Keys == s.writers.Keys + {id}
    && (forall x :: x in s.writers && x != id ==> t.writers[x] == s.writers[x])
    && (t.lock == s.lock || ((s.lock == None || s.lock == Some(id)) && (t.lock == None || t.lock == Some(id))))
  }

  /** One writer moves on without committing: the invariant needs checking only for that writer. */
  lemma QuietStep(s: State, t: State, id: WriterId)
    requires Inv(s) && OnlyWriter(s, t, id) && WriterSound(t, id)
    requires id in s.writers ==> !s.writers[id].phase.Appended?
    ensures Inv(t)
  {
    hide History, After, StreamRows, ReaderAt, RowsOf, Numbered;
    SameLogKeepsTheRest(s, t);
    forall x | x in t.writers ensures WriterSound(t, x) {
      if x != id {
        assert x in s.writers;
        OthersStaySound(s, t, x);
      }
    }
    forall i | 0 <= i < |t.commits| ensures OwnedCommit(t, i) { assert OwnedCommit(s, i); }
    assert WritersSound(t) && CommitsOwned(t);
  }

  lemma ConflictKeeps(s: State, drawn: State, id: WriterId)
    requires Inv(s) && id in s.writers && InTransaction(s.writers[id].phase)
    requires drawn == s || drawn == s.(lastSeq := s.lastSeq + 1)
    ensures Inv(Conflict(drawn, id))
  {
    hide History, After, StreamRows, ReaderAt, RowsOf, Numbered;
    assert WriterSound(s, id);
    QuietStep(s, Conflict(drawn, id), id);
  }

  lemma LoadedSound(s: State, id: WriterId)
    requires id in s.writers && s.writers[id].phase.Loading? && WriterSound(s, id)
    ensures OnlyWriter(s, LoadVersion(s, id), id) && WriterSound(LoadVersion(s, id), id)
  {
    hide History, RowsOf, Unseen;
  }

  lemma LoadKeeps(s: State, id: WriterId)
    requires Inv(s) && id in s.writers && s.writers[id].phase.Loading?
    ensures Inv(LoadVersion(s, id))
  {
    assert WriterSound(s, id);
    hide Inv, LoadVersion, WriterSound;
    LoadedSound(s, id);
    QuietStep(s, LoadVersion(s, id), id);
  }

  /** With the lock held the next version is always free: the uniqueness backstop cannot fire. */
  lemma BackstopNeverFires(s: State, id: WriterId)
    requires Inv(s) && id in s.writers && s.writers[id].phase.Inserting?
    ensures var w := s.writers[id];
      !Taken(s.rows + w.phase.pending, w.request.streamId, Expected(w, w.phase.current) + |w.phase.pending| + 1)
  {
    var w := s.writers[id];
    var pending, stream := w.phase.pending, w.request.streamId;
    var version := Expected(w, w.phase.current) + |pending| + 1;
    assert WriterSound(s, id) && Numbered(s, stream);
    var h := History(s.commits);
    AfterMembers(h, s.swept);
    StreamRowsAreRows(h, stream);
    forall r | r in s.rows + pending && r.streamId == stream ensures r.version != version {
      if r in s.rows {
        var mine := StreamRows(h, stream);
        assert r in mine;
        var k :| 0 <= k < |mine| && mine[k] == r;
      } else {
        var k :| 0 <= k < |pending| && pending[k] == r;
      }
    }
  }

  /** The new row is the next of its stream, above everything committed or pending. */
  lemma InsertedSound(s: State, id: WriterId)
    requires Enabled(s, Insert(id)) && WriterSound(s, id) && LogInOrder(s)
    requires var w := s.writers[id];
      !Taken(s.rows + w.phase.pending, w.request.streamId, Expected(w, w.phase.current) + |w.phase.pending| + 1)
    ensures OnlyWriter(s, InsertOne(s, id), id) && WriterSound(InsertOne(s, id), id)
  {
    hide History, Taken, Conflict;
  }

  lemma InsertKeeps(s: State, id: WriterId)
    requires Inv(s) && Enabled(s, Insert(id))
    ensures Inv(InsertOne(s, id))
  {
    BackstopNeverFires(s, id);
    assert WriterSound(s, id) && LogInOrder(s);
    hide Inv, InsertOne, WriterSound, Taken, LogInOrder;
    InsertedSound(s, id);
    QuietStep(s, InsertOne(s, id), id);
  }

  lemma CasKeeps(s: State, id: WriterId)
    requires Inv(s) && Enabled(s, CompareAndSet(id))
    ensures Inv(WriterStep(s, CompareAndSet(id)))
  {
    hide History, After, StreamRows, ReaderAt, Numbered;
    assert WriterSound(s, id);
    var current := s.writers[id].phase.current;
    if CasSucceeds(s, s.writers[id].request.streamId, Expected(s.writers[id], current)) {
      QuietStep(s, To(s, id, Inserting(current, [])), id);
    } else {
      ConflictKeeps(s, s, id);
    }
  }

  /** After a commit the others' facts still hold: nobody else was in a transaction. */
  lemma OthersSurviveCommit(s: State, t: State, id: WriterId, other: WriterId)
    requires Inv(s) && id in s.writers && id != other && s.lock == Some(other)
    requires t.lock == None && id in t.writers && t.writers[id] == s.writers[id]
    requires |s.commits| <= |t.commits| && t.commits[..|s.commits|] == s.commits
    requires forall stream :: Version(s, stream) <= Version(t, stream)
    ensures WriterSound(t, id)
  {
    hide History, RowsOf, Unseen, Retained, LogInOrder, StreamsNumbered, SweepIsSafe, CommitsOwned, ReaderFollows;
    assert WriterSound(s, id);
    if s.writers[id].phase.Appended? {
      var at := s.writers[id].phase.at;
      assert t.commits[..|s.commits|][at] == t.commits[at];
    }
  }

  lemma CommitExtends(s: State, id: WriterId)
    requires Enabled(s, CommitAll(id))
    ensures History(CommitPending(s, id).commits) == History(s.commits) + s.writers[id].phase.pending
  {
    HistoryOfLonger(s.commits, Commit(id, s.writers[id].phase.pending));
  }

  lemma CommitKeepsOrder(s: State, id: WriterId)
    requires Inv(s) && Enabled(s, CommitAll(id))
    ensures LogInOrder(CommitPending(s, id)) && Retained(CommitPending(s, id))
  {
    hide History, After, Numbered, ReaderFollows, RowsOf;
    var pending := s.writers[id].phase.pending;
    CommitExtends(s, id);
    assert WriterSound(s, id);
    LongerLogInOrder(History(s.commits), pending);
    AfterSum(History(s.commits), pending, s.swept);
    SweptBelow(s, pending);
  }

  lemma CommitKeepsNumbers(s: State, id: WriterId)
    requires Inv(s) && Enabled(s, CommitAll(id))
    ensures StreamsNumbered(CommitPending(s, id))
  {
    hide History, After, Numbered, ReaderFollows, RowsOf, Unseen;
    var t, w := CommitPending(s, id), s.writers[id];
    CommitExtends(s, id);
    assert WriterSound(s, id);
    forall stream ensures Numbered(t, stream) {
      assert Numbered(s, stream) && Numbered(s, w.request.streamId);
      NumberedAfterCommit(s, t, stream, w, w.phase.current, w.phase.pending);
    }
  }

  lemma CommitKeepsLog(s: State, id: WriterId)
    requires Inv(s) && Enabled(s, CommitAll(id))
    ensures var t := CommitPending(s, id);
      LogInOrder(t) && Retained(t) && SweepIsSafe(t) && StreamsNumbered(t) && forall p :: ReaderFollows(t, p)
  {
    hide History, After, Numbered, ReaderFollows, RowsOf, Unseen, LogInOrder, Retained, StreamsNumbered;
    var t := CommitPending(s, id);
    CommitExtends(s, id);
    CommitKeepsOrder(s, id);
    CommitKeepsNumbers(s, id);
    assert forall p :: ReaderOf(t, p) == ReaderOf(s, p);
    CommitKeepsReaders(s, t, s.writers[id].phase.pending);
  }

  lemma CommitKeepsReaders(s: State, t: State, pending: seq<Row>)
    requires forall p :: ReaderFollows(s, p)
    requires History(t.commits) == History(s.commits) + pending
    requires forall p :: ReaderOf(t, p) == ReaderOf(s, p)
    ensures forall p :: ReaderFollows(t, p)
  {
    hide History, ReaderAt;
    forall p ensures ReaderFollows(t, p) {
      assert ReaderFollows(s, p);
      var c: nat :| ReaderAt(History(s.commits), ReaderOf(s, p), c);
      ReaderAtLonger(History(s.commits), pending, ReaderOf(s, p), c);
    }
  }

  /** Rows not yet committed lie above every sweep. */
  lemma SweptBelow(s: State, pending: seq<Row>)
    requires Inv(s) && Unseen(s, pending)
    ensures After(pending, s.swept) == pending
  {
    hide History;
    forall r | r in pending ensures r.globalSeq > s.swept {
      var k :| 0 <= k < |pending| && pending[k] == r;
      if s.swept > 0 {
        assert ReaderFollows(s, AuditTimeline);
        var c: nat :| ReaderAt(History(s.commits), ReaderOf(s, AuditTimeline), c);
        assert ReaderOf(s, AuditTimeline).checkpoint.Some?;
        assert c > 0 && History(s.commits)[c - 1] in History(s.commits);
      }
    }
    AfterAll(pending, s.swept);
  }

  lemma CommitKeepsWriters(s: State, id: WriterId)
    requires Inv(s) && Enabled(s, CommitAll(id))
    ensures WritersSound(CommitPending(s, id))
  {
    hide History, Unseen, Retained, LogInOrder, StreamsNumbered, SweepIsSafe, ReaderFollows, CommitsOwned;
    var t := CommitPending(s, id);
    assert WriterSound(s, id);
    assert t.commits[..|s.commits|] == s.commits;
    assert WriterSound(t, id);
    hide WriterSound;
    forall x | x in t.writers ensures WriterSound(t, x) {
      if x != id { OthersSurviveCommit(s, t, x, id); }
    }
  }

  lemma CommitKeepsOwners(s: State, id: WriterId)
    requires Inv(s) && Enabled(s, CommitAll(id))
    ensures CommitsOwned(CommitPending(s, id))
  {
    hide History, RowsOf, Unseen, Retained, LogInOrder, StreamsNumbered, SweepIsSafe, ReaderFollows, WriterSound;
    var t := CommitPending(s, id);
    forall i | 0 <= i < |t.commits| ensures OwnedCommit(t, i) {
      if i < |s.commits| { assert OwnedCommit(s, i); }
    }
  }

  lemma CommitKeeps(s: State, id: WriterId)
    requires Inv(s) && Enabled(s, CommitAll(id))
    ensures Inv(CommitPending(s, id))
  {
    hide CommitPending, History, Retained, LogInOrder, StreamsNumbered, SweepIsSafe, ReaderFollows, WritersSound, CommitsOwned;
    CommitKeepsLog(s, id);
    CommitKeepsWriters(s, id);
    CommitKeepsOwners(s, id);
  }

  // ----- Readers and the sweep ---------------------------------------------------------------------------

  lemma {:induction false} UpsertNew(table: seq<Row>, row: Row)
    requires forall r :: r in table ==> r.globalSeq != row.globalSeq
    ensures Upserted(table, row) == table + [row]
  {
    if table != [] {
      assert table[0] in table;
      UpsertNew(table[1..], row);
    }
  }

  lemma {:induction false} UpsertAgain(table: seq<Row>, row: Row)
    requires forall r :: r in table ==> r.globalSeq != row.globalSeq
    ensures Upserted(table + [row], row) == table + [row]
  {
    if table != [] {
      assert table[0] in table;
      UpsertAgain(table[1..], row);
      assert (table + [row])[1..] == table[1..] + [row];
    }
  }

  /** Applying the next row leaves the read model one row longer, or as it was after a crash. */
  lemma UpsertFollows(h: seq<Row>, r: Reader, c: nat)
    requires Ascending(h) && ReaderAt(h, r, c) && r.batch != []
    ensures Upserted(r.table, r.batch[0]) == h[..c + 1]
  {
    assert r.batch[0] == h[c] && h[..c + 1] == h[..c] + [h[c]];
    forall x | x in h[..c] ensures x.globalSeq != h[c].globalSeq {
      var i :| 0 <= i < c && h[i] == x;
    }
    UpsertNew(h[..c], h[c]);
    UpsertAgain(h[..c], h[c]);
  }

  lemma AdvanceFollows(h: seq<Row>, r: Reader, c: nat)
    requires Ascending(h) && ReaderAt(h, r, c) && r.batch != [] && r.written
    ensures ReaderAt(h, r.(checkpoint := Some(r.batch[0].globalSeq), batch := r.batch[1..], written := false), c + 1)
    ensures r.checkpoint.Some? ==> r.checkpoint.value <= r.batch[0].globalSeq
    ensures r.batch[0] in h
  {
    assert r.batch[0] == h[c];
    assert r.batch[1..] == h[c + 1..c + |r.batch|];
    if c > 0 { assert h[c - 1].globalSeq < h[c].globalSeq; }
  }

  predicate IsReaderStep(a: Action) {
    a.StartPass? || a.Upsert? || a.Advance? || a.Restart?
  }

  /** The reader keeps its place in the history, and its checkpoint never goes back. */
  lemma ReaderStepFollows(s: State, a: Action, c: nat) returns (d: nat)
    requires Inv(s) && IsReaderStep(a) && Enabled(s, a)
    requires ReaderAt(History(s.commits), ReaderOf(s, a.projection), c)
    ensures ReaderAt(History(s.commits), ReaderStep(s, a), d)
    ensures var r := ReaderOf(s, a.projection);
      r.checkpoint.Some? ==> ReaderStep(s, a).checkpoint.Some? && r.checkpoint.value <= ReaderStep(s, a).checkpoint.value
  {
    hide History, After, SortBySeq, Upserted, WritersSound, StreamsNumbered, CommitsOwned, ReaderFollows;
    var r, h := ReaderOf(s, a.projection), History(s.commits);
    d := c;
    match a
    case StartPass(p) =>
      ReadAllIsTheRest(s, p, c);
    case Upsert(_) =>
      UpsertFollows(h, r, c);
    case Advance(_) =>
      AdvanceFollows(h, r, c);
      d := c + 1;
    case Restart(_) =>
  }

  lemma ReaderStepKeeps(s: State, a: Action)
    requires Inv(s) && IsReaderStep(a) && Enabled(s, a)
    ensures Inv(WithReader(s, a.projection, ReaderStep(s, a)))
  {
    hide ReaderAt, ReaderStep, History, LogInOrder, Retained, SweepIsSafe, StreamsNumbered, WritersSound, CommitsOwned;
    assert ReaderFollows(s, a.projection);
    var c: nat :| ReaderAt(History(s.commits), ReaderOf(s, a.projection), c);
    var d := ReaderStepFollows(s, a, c);
    ReaderMoves(s, a.projection, ReaderStep(s, a), d);
  }

  /** Moving one reader to another place in the history touches nothing else. */
  lemma ReaderMoves(s: State, p: Projection, r: Reader, d: nat)
    requires Inv(s) && ReaderAt(History(s.commits), r, d)
    requires ReaderOf(s, p).checkpoint.Some? ==>
      r.checkpoint.Some? && ReaderOf(s, p).checkpoint.value <= r.checkpoint.value
    ensures Inv(WithReader(s, p, r))
  {
    hide History, After, ReaderAt, StreamRows, RowsOf, Numbered, WriterSound;
    var t := WithReader(s, p, r);
    forall q ensures ReaderFollows(t, q) {
      assert ReaderFollows(s, q);
      if q == p {
        assert ReaderAt(History(t.commits), ReaderOf(t, q), d);
      } else {
        var c: nat :| ReaderAt(History(s.commits), ReaderOf(s, q), c);
        assert ReaderAt(History(t.commits), ReaderOf(t, q), c);
      }
    }
    CoverageGrows(s, t);
    forall stream ensures Numbered(t, stream) { assert Numbered(s, stream); NumberedElsewhere(s, t, stream); }
    forall id | id in t.writers ensures WriterSound(t, id) { OthersStaySound(s, t, id); }
    forall i | 0 <= i < |t.commits| ensures OwnedCommit(t, i) { assert OwnedCommit(s, i); }
  }

  lemma CoverageGrows(s: State, t: State)
    requires SweepIsSafe(s) && t.swept == s.swept && t.sweep == s.sweep
    requires forall p :: ReaderOf(s, p).checkpoint.Some? ==>
      ReaderOf(t, p).checkpoint.Some? && ReaderOf(s, p).checkpoint.value <= ReaderOf(t, p).checkpoint.value
    ensures SweepIsSafe(t)
  {
  }

  lemma NumberedElsewhere(s: State, t: State, stream: StreamId)
    requires Numbered(s, stream) && t.commits == s.commits && t.streams == s.streams
    ensures Numbered(t, stream)
  {
  }

  lemma SweepKeeps(s: State, a: Action)
    requires Inv(s) && Enabled(s, a) && (a.ReadWatermark? || a.DeleteSwept?)
    ensures Inv(Step(s, a))
  {
    hide History, After, ReaderAt, StreamRows, RowsOf, Numbered;
    var t := Step(s, a);
    assert forall p :: ReaderOf(t, p) == ReaderOf(s, p);
    forall p ensures ReaderFollows(t, p) { assert ReaderFollows(s, p); }
    forall stream ensures Numbered(t, stream) { assert Numbered(s, stream); NumberedElsewhere(s, t, stream); }
    forall id | id in t.writers ensures WriterSound(t, id) { OthersStaySound(s, t, id); }
    forall i | 0 <= i < |t.commits| ensures OwnedCommit(t, i) { assert OwnedCommit(s, i); }
    if a.DeleteSwept? { AfterTwice(History(s.commits), s.swept, s.sweep.value); }
  }

  lemma StepKeeps(s: State, a: Action)
    requires Inv(s)
    ensures Inv(Step(s, a))
  {
    hide Inv, ReaderStep, LoadVersion, InsertOne, CommitPending, Conflict;
    if Enabled(s, a) {
      match a
      case Load(id) => LoadKeeps(s, id);
      case CompareAndSet(id) => CasKeeps(s, id);
      case Insert(id) => InsertKeeps(s, id);
      case CommitAll(id) => CommitKeeps(s, id);
      case Start(_, _) => BriefStepKeeps(s, a);
      case TakeLock(_) => BriefStepKeeps(s, a);
      case Fail(_) => BriefStepKeeps(s, a);
      case ReadWatermark(_) => SweepKeeps(s, a);
      case DeleteSwept => SweepKeeps(s, a);
      case _ => ReaderStepKeeps(s, a);
    }
  }

  lemma BriefStepKeeps(s: State, a: Action)
    requires Inv(s) && Enabled(s, a) && (a.Start? || a.TakeLock? || a.Fail?)
    ensures Inv(WriterStep(s, a))
  {
    hide History, After, StreamRows, ReaderAt, RowsOf, Numbered;
    assert a.writer in s.writers ==> WriterSound(s, a.writer);
    QuietStep(s, WriterStep(s, a), a.writer);
  }

  lemma EmptyIsSound()
    ensures Inv(EMPTY)
  {
    forall p ensures ReaderFollows(EMPTY, p) {
      assert ReaderAt(History(EMPTY.commits), ReaderOf(EMPTY, p), 0);
    }
    assert LogInOrder(EMPTY) && Retained(EMPTY) && SweepIsSafe(EMPTY);
    assert forall stream :: Numbered(EMPTY, stream);
  }

  lemma {:induction false} RunKeeps(s: State, actions: seq<Action>)
    requires Inv(s)
    ensures Inv(Run(s, actions))
    decreases actions
  {
    hide Inv, Step;
    if actions != [] {
      StepKeeps(s, actions[0]);
      RunKeeps(Step(s, actions[0]), actions[1..]);
    }
  }

  // ----- What it means for callers ---------------------------------------------------------------

  lemma ReachableIsSound(actions: seq<Action>)
    ensures Inv(Run(EMPTY, actions))
  {
    EmptyIsSound();
    RunKeeps(EMPTY, actions);
  }

  /** In every interleaving the order of `global_seq` is the order of commits. */
  lemma GlobalOrderIsCommitOrder(actions: seq<Action>, i: nat, j: nat, a: Row, b: Row)
    requires var commits := Run(EMPTY, actions).commits;
      i < j < |commits| && a in commits[i].rows && b in commits[j].rows
    ensures a.globalSeq < b.globalSeq
  {
    hide Run, Inv;
    ReachableIsSound(actions);
    var s := Run(EMPTY, actions);
    OrderedWhenSound(s);
    EarlierCommitEarlierRow(s.commits, i, j, a, b);
  }

  lemma OrderedWhenSound(s: State)
    requires Inv(s)
    ensures LogInOrder(s)
  {
  }

  lemma {:induction false} RowsOfACommit(commits: seq<Commit>, i: nat, a: Row)
    requires i < |commits| && a in commits[i].rows
    ensures a in History(commits)
  {
    var front := commits[..|commits| - 1];
    if i < |front| { RowsOfACommit(front, i, a); }
  }

  lemma {:induction false} EarlierCommitEarlierRow(commits: seq<Commit>, i: nat, j: nat, a: Row, b: Row)
    requires Ascending(History(commits)) && i < j < |commits| && a in commits[i].rows && b in commits[j].rows
    ensures a.globalSeq < b.globalSeq
  {
    var front, last := commits[..|commits| - 1], commits[|commits| - 1];
    var h := History(front);
    assert History(commits) == h + last.rows;
    forall x, y | 0 <= x < y < |h| ensures h[x].globalSeq < h[y].globalSeq {
      assert (h + last.rows)[x] == h[x] && (h + last.rows)[y] == h[y];
    }
    if j < |front| {
      EarlierCommitEarlierRow(front, i, j, a, b);
    } else {
      RowsOfACommit(front, i, a);
      var x :| 0 <= x < |h| && h[x] == a;
      var y :| 0 <= y < |last.rows| && last.rows[y] == b;
      assert (h + last.rows)[x] == a && (h + last.rows)[|h| + y] == b;
    }
  }

  /** Every stream reads 1, 2, ..., N where N is its version row, committed rows pruned or not. */
  lemma StreamsHaveNoGaps(actions: seq<Action>, stream: StreamId)
    ensures Numbered(Run(EMPTY, actions), stream)
  {
    hide Run, Numbered;
    ReachableIsSound(actions);
  }

  /**
   * A finished append is one commit, on the version it built for; a writer that gave up, was
   * rejected, failed or had nothing to append owns no commit at all.
   */
  lemma AppendsAreAllOrNothing(actions: seq<Action>, id: WriterId)
    requires id in Run(EMPTY, actions).writers
    ensures var s := Run(EMPTY, actions); var w := s.writers[id];
      && w.attempt <= w.request.maxRetries
      && (!w.phase.Appended? ==> forall i :: 0 <= i < |s.commits| ==> s.commits[i].writer != id)
      && (w.phase.Appended? ==>
            && w.phase.at < |s.commits|
            && (forall i :: 0 <= i < |s.commits| ==> (s.commits[i].writer == id <==> i == w.phase.at))
            && |s.commits[w.phase.at].rows| == |Events(w, w.phase.current)| > 0
            && RowsOf(w, w.phase.current, s.commits[w.phase.at].rows))
  {
    hide Run, RowsOf, LogInOrder, Retained, SweepIsSafe, StreamsNumbered, ReaderFollows;
    ReachableIsSound(actions);
    var s := Run(EMPTY, actions);
    assert WriterSound(s, id);
    forall i | 0 <= i < |s.commits| && s.commits[i].writer == id
      ensures s.writers[id].phase.Appended? && i == s.writers[id].phase.at {
      assert OwnedCommit(s, i);
    }
  }

  /** A lost compare-and-set means the stream has grown since the version was loaded. */
  lemma ConflictMeansOvertaken(actions: seq<Action>, id: WriterId)
    requires id in Run(EMPTY, actions).writers && Run(EMPTY, actions).writers[id].phase.Locked?
    ensures var s := Run(EMPTY, actions); var w := s.writers[id];
      Expected(w, w.phase.current) == w.phase.current ==>
        (!CasSucceeds(s, w.request.streamId, w.phase.current) <==> w.phase.current < Version(s, w.request.streamId))
  {
    hide Run, RowsOf, LogInOrder, Retained, SweepIsSafe, StreamsNumbered, ReaderFollows, CommitsOwned;
    ReachableIsSound(actions);
    assert WriterSound(Run(EMPTY, actions), id);
  }

  /** A read model is always a prefix of the committed history: nothing skipped, repeated or reordered. */
  lemma ReadersFoldInOrder(actions: seq<Action>, p: Projection) returns (c: nat)
    ensures var s := Run(EMPTY, actions); ReaderAt(History(s.commits), ReaderOf(s, p), c)
  {
    hide Run, ReaderAt, LogInOrder, Retained, SweepIsSafe, StreamsNumbered, WritersSound, CommitsOwned;
    ReachableIsSound(actions);
    var s := Run(EMPTY, actions);
    assert ReaderFollows(s, p);
    c :| ReaderAt(History(s.commits), ReaderOf(s, p), c);
  }

  /** A pass from any reachable state reads exactly the committed rows above its checkpoint. */
  lemma PassReadsEverythingElse(actions: seq<Action>, p: Projection) returns (c: nat)
    ensures var s := Run(EMPTY, actions); var h := History(s.commits);
      && c <= |h| && (c > 0 ==> ReaderOf(s, p).checkpoint == Some(h[c - 1].globalSeq))
      && ReadAll(s, LastSeq(ReaderOf(s, p))) == h[c..]
  {
    hide Run, LogInOrder, Retained, SweepIsSafe, StreamsNumbered, WritersSound, CommitsOwned, ReadAll;
    c := ReadersFoldInOrder(actions, p);
    ReachableIsSound(actions);
    ReadAllIsTheRest(Run(EMPTY, actions), p, c);
  }

  // ----- Pruning is invisible ------------------------------------------------------------------------

  function WithoutSweeps(actions: seq<Action>): seq<Action> {
    if actions == [] then []
    else if actions[0].ReadWatermark? || actions[0].DeleteSwept? then WithoutSweeps(actions[1..])
    else [actions[0]] + WithoutSweeps(actions[1..])
  }

  /** Equal in everything but the rows still kept. */
  ghost predicate SameButForRows(s: State, t: State) {
    && s.lastSeq == t.lastSeq && s.streams == t.streams && s.lock == t.lock && s.writers == t.writers
    && s.audit == t.audit && s.geo == t.geo && s.commits == t.commits
  }

  lemma InsertIgnoresSweeps(s: State, t: State, id: WriterId)
    requires Inv(s) && Inv(t) && SameButForRows(s, t) && Enabled(s, Insert(id)) && Enabled(t, Insert(id))
    ensures SameButForRows(InsertOne(s, id), InsertOne(t, id))
  {
    hide Inv, Taken, Conflict, Expected;
    BackstopNeverFires(s, id);
    BackstopNeverFires(t, id);
  }

  lemma PassIgnoresSweeps(s: State, t: State, p: Projection)
    requires Inv(s) && Inv(t) && SameButForRows(s, t)
    ensures ReaderOf(s, p) == ReaderOf(t, p) && ReadAll(s, LastSeq(ReaderOf(s, p))) == ReadAll(t, LastSeq(ReaderOf(t, p)))
  {
    assert ReaderOf(s, p) == ReaderOf(t, p);
    assert ReaderFollows(s, p);
    hide ReaderAt, ReadAll, LogInOrder, Retained, SweepIsSafe, StreamsNumbered, WritersSound, CommitsOwned, History;
    var c: nat :| ReaderAt(History(s.commits), ReaderOf(s, p), c);
    ReadAllIsTheRest(s, p, c);
    ReadAllIsTheRest(t, p, c);
  }

  lemma WriterIgnoresSweeps(s: State, t: State, a: Action)
    requires SameButForRows(s, t) && !a.Insert?
    requires a.Start? || a.Load? || a.TakeLock? || a.CompareAndSet? || a.CommitAll? || a.Fail?
    ensures SameButForRows(Step(s, a), Step(t, a))
  {
    hide After;
  }

  lemma ReaderIgnoresSweeps(s: State, t: State, a: Action)
    requires Inv(s) && Inv(t) && SameButForRows(s, t) && IsReaderStep(a)
    ensures SameButForRows(Step(s, a), Step(t, a))
  {
    hide Inv, ReadAll, Upserted;
    PassIgnoresSweeps(s, t, a.projection);
  }

  lemma StepIgnoresSweeps(s: State, t: State, a: Action)
    requires Inv(s) && Inv(t) && SameButForRows(s, t)
    ensures a.ReadWatermark? || a.DeleteSwept? ==> SameButForRows(Step(s, a), t)
    ensures !a.ReadWatermark? && !a.DeleteSwept? ==> SameButForRows(Step(s, a), Step(t, a))
  {
    if IsReaderStep(a) {
      ReaderIgnoresSweeps(s, t, a);
    } else if a.Insert? {
      assert Enabled(s, a) == Enabled(t, a);
      if Enabled(s, a) { InsertIgnoresSweeps(s, t, a.writer); }
      hide Inv, InsertOne;
    } else if !a.ReadWatermark? && !a.DeleteSwept? {
      hide Inv, Step;
      WriterIgnoresSweeps(s, t, a);
    } else {
      hide Inv, After;
    }
  }

  /** However the sweeps are interleaved, everyone folds, appends and reports just as without them. */
  lemma {:induction false} PruningIsInvisibleFrom(s: State, t: State, actions: seq<Action>)
    requires Inv(s) && Inv(t) && SameButForRows(s, t)
    ensures SameButForRows(Run(s, actions), Run(t, WithoutSweeps(actions)))
    decreases actions
  {
    hide Inv, Step, SameButForRows;
    if actions != [] {
      var a, rest := actions[0], actions[1..];
      StepIgnoresSweeps(s, t, a);
      StepKeeps(s, a);
      StepKeeps(t, a);
      if a.ReadWatermark? || a.DeleteSwept? {
        PruningIsInvisibleFrom(Step(s, a), t, rest);
      } else {
        PruningIsInvisibleFrom(Step(s, a), Step(t, a), rest);
        assert WithoutSweeps(actions)[1..] == WithoutSweeps(rest);
      }
    }
  }

  lemma PruningIsInvisible(actions: seq<Action>)
    ensures SameButForRows(Run(EMPTY, actions), Run(EMPTY, WithoutSweeps(actions)))
  {
    EmptyIsSound();
    PruningIsInvisibleFrom(EMPTY, EMPTY, actions);
  }
}
