/**
 * What the claim table, the log and the memory of the rolling optimizer say about the calls made: the
 * status of a claim, the call each batch came from, and the result a reader is shown.
 */
module RollingStatus {
  import opened RollingService
  import opened RollingLaws

  // ----- One caller after another ---------------------------------------------------------------

  /** What became of the first call that brought a plan for the key. */
  function FirstFate(calls: seq<Call>, key: Key): Option<Fate>
    decreases calls
  {
    if calls == [] then None
    else if Tries(calls[0], key) then Some(calls[0].fate)
    else FirstFate(calls[1..], key)
  }

  /** The row of a key: absent, or closed the way its first call went. */
  ghost predicate RowTells(t: Tables, key: Key, fate: Option<Fate>) {
    if fate.None? then key !in t.claims
    else key in t.claims && t.claims[key] == if fate.value == AllWell then COMPLETED else FAILED
  }

  lemma StepMarks(s: Service, c: Call, key: Key, fate: Option<Fate>)
    requires RowTells(s.tables, key, fate)
    ensures RowTells(Step(s, c).tables, key, if fate.Some? then fate else if Tries(c, key) then Some(c.fate) else None)
  {
    hide PlanBatch;
  }

  lemma {:induction false} RunMarks(s: Service, calls: seq<Call>, key: Key, fate: Option<Fate>)
    requires RowTells(s.tables, key, fate)
    ensures RowTells(Run(s, calls).tables, key, if fate.Some? then fate else FirstFate(calls, key))
    decreases calls
  {
    hide Step, RowTells;
    if calls != [] {
      StepMarks(s, calls[0], key, fate);
      RunMarks(Step(s, calls[0]), calls[1..], key, if fate.Some? then fate else if Tries(calls[0], key) then Some(calls[0].fate) else None);
    }
  }

  lemma {:induction false} FirstFateIsFirstTry(calls: seq<Call>, key: Key)
    ensures FirstTryAppends(calls, key) <==> FirstFate(calls, key).Some? && FirstFate(calls, key).value != AppendThrows
    decreases calls
  {
    if calls != [] { FirstFateIsFirstTry(calls[1..], key); }
  }

  /**
   * Over any calls and restarts: a key is COMPLETED if and only if the first call that tried it went
   * well, and every other key tried is FAILED. A COMPLETED key has its batch in the log; a FAILED one has
   * it if and only if it was the closing update that threw.
   */
  lemma StatusTells(calls: seq<Call>, key: Key)
    ensures var t, fate := Run(START, calls).tables, FirstFate(calls, key);
      && (key in t.claims <==> fate.Some?)
      && (key in t.claims ==>
            && t.claims[key] == (if fate == Some(AllWell) then COMPLETED else FAILED)
            && (t.claims[key] == COMPLETED ==> InLog(t, key))
            && (t.claims[key] == FAILED ==> (InLog(t, key) <==> fate == Some(CompletingThrows))))
  {
    hide InLog, Step;
    RunMarks(START, calls, key, None);
    OnlyTheFirstTryCounts(calls, key);
    FirstFateIsFirstTry(calls, key);
  }

  lemma {:induction false} RunOneMore(s: Service, calls: seq<Call>, c: Call)
    ensures Run(s, calls + [c]) == Step(Run(s, calls), c)
    decreases calls
  {
    hide Step;
    if calls == [] {
      assert ([] + [c])[1..] == [];
    } else {
      assert (calls + [c])[1..] == calls[1..] + [c];
      RunOneMore(Step(s, calls[0]), calls[1..], c);
    }
  }

  /** The batch brings the plan of the call, with the set staged for its trailer at that time. */
  ghost predicate BroughtBy(b: Batch, stream: Stream, c: Call) {
    && c.RunOnce? && Offers(c.result) && c.fate != AppendThrows && b.key == c.result.key && b.staged == c.staged
    && stream == StreamOf(c.result.accepted.value.trailerId)
    && 2 <= |b.events| <= 3
    && b.events[0] == PlanGenerated(c.result.generated.value) && b.events[1] == PlanAccepted(c.result.accepted.value)
    && (|b.events| == 3 ==>
          var a, s := c.result.accepted.value, b.events[2];
          && s.PlanSuperseded? && s.epochId == a.epochId && s.scopeHash == a.scopeHash && s.trailerId == a.trailerId
          && s.occurredAt == a.occurredAt && s.reason == "superseded by " + a.planId)
  }

  lemma StepBrings(s: Service, c: Call, stream: Stream, i: nat)
    requires i < |Batches(Step(s, c).tables, stream)|
    ensures var before, after := Batches(s.tables, stream), Batches(Step(s, c).tables, stream);
      if i < |before| then after[i] == before[i]
      else BroughtBy(after[i], stream, c) && c.result.key !in s.tables.claims
  {
  }

  /** Every batch in the log came from the first call that brought a plan for its key. */
  lemma {:induction false} EveryBatchIsAFirstTry(calls: seq<Call>, stream: Stream, i: nat) returns (j: nat)
    requires i < |Batches(Run(START, calls).tables, stream)|
    ensures j < |calls| && BroughtBy(Batches(Run(START, calls).tables, stream)[i], stream, calls[j])
    ensures !Tried(calls[..j], calls[j].result.key)
    decreases |calls|
  {
    if calls == [] {
      assert false;
    } else {
      var front, last := calls[..|calls| - 1], calls[|calls| - 1];
      assert front + [last] == calls;
      RunOneMore(START, front, last);
      hide Run, Step, BroughtBy, Tried;
      StepBrings(Run(START, front), last, stream, i);
      if i < |Batches(Run(START, front).tables, stream)| {
        j := EveryBatchIsAFirstTry(front, stream, i);
        assert front[..j] == calls[..j];
      } else {
        j := |front|;
        OnlyTheFirstTryCounts(front, last.result.key);
        assert calls[..j] == front;
      }
    }
  }

  /** Every trailer has a stream of its own. */
  lemma OneStreamPerTrailer(a: string, b: string)
    ensures StreamOf(a) == StreamOf(b) <==> a == b
  {
    assert StreamOf(a)[10..] == a && StreamOf(b)[10..] == b;
  }

  // ----- The result a reader is shown -------------------------------------------------------------

  /** The call threw: it brought a plan, its key was free, and the append or the closing update failed. */
  predicate Throws(before: seq<Call>, c: Call) {
    c.RunOnce? && Offers(c.result) && !Tried(before, c.result.key) && c.fate != AllWell
  }

  /** The last result since the latest restart, of the calls that did not throw; `some` asks for recommendations. */
  function LastRecorded(calls: seq<Call>, some: bool): Option<EpochResult> {
    if calls == [] then None
    else
      var front, last := calls[..|calls| - 1], calls[|calls| - 1];
      if last.Restart? then None
      else if Throws(front, last) || (some && last.result.recommendations == []) then LastRecorded(front, some)
      else Some(last.result)
  }

  lemma {:induction false} MemoryHoldsTheLatest(calls: seq<Call>)
    ensures Run(START, calls).memory.latest == LastRecorded(calls, false)
    ensures Run(START, calls).memory.latestNonEmpty == LastRecorded(calls, true)
    decreases |calls|
  {
    if calls != [] {
      var front, last := calls[..|calls| - 1], calls[|calls| - 1];
      assert front + [last] == calls;
      RunOneMore(START, front, last);
      MemoryHoldsTheLatest(front);
      hide Run, PlanBatch, Tried;
      if last.RunOnce? { OnlyTheFirstTryCounts(front, last.result.key); }
    }
  }

  // ----- Concurrent epochs ------------------------------------------------------------------------

  ghost predicate Committer(w: World, id: CallId, key: Key) {
    id in w.epochs && w.epochs[id].phase == Closed(Committed) && w.epochs[id].result.key == key
  }

  /**
   * One holder per key, its claim still PROCESSING; whoever wrote has its batch in the log; and a
   * COMPLETED claim was completed by the call that committed.
   */
  ghost predicate Honest(w: World) {
    && (forall id :: Holds(w, id) ==> w.epochs[id].result.key in w.claims && w.claims[w.epochs[id].result.key] == PROCESSING)
    && (forall a, b :: Holds(w, a) && Holds(w, b) && a != b ==> w.epochs[a].result.key != w.epochs[b].result.key)
    && (forall id :: id in w.epochs && w.epochs[id].phase.Wrote? ==> Written(w, w.epochs[id].result.key))
    && (forall id, key :: Committer(w, id, key) ==> key in w.claims && w.claims[key] == COMPLETED)
    && (forall key :: key in w.claims && w.claims[key] == COMPLETED ==> Written(w, key) && exists id :: Committer(w, id, key))
  }

  lemma WrittenStays(w: World, m: Move, key: Key)
    requires Written(w, key)
    ensures Written(Moved(w, m), key)
  {
    var i :| 0 <= i < |w.log| && w.log[i].1 == key;
    assert Moved(w, m).log[i].1 == key;
  }

  /** Changing one call that has not committed, and claiming at most a free key, keeps what the others rely on. */
  lemma OneCallKeepsHonest(w: World, t: World, id: CallId, mine: Key)
    requires Honest(w) && id in w.epochs && w.epochs[id].phase.Evaluated? && w.epochs[id].result.key == mine
    requires id in t.epochs && t.epochs[id].result.key == mine && (forall x :: x != id ==> (x in t.epochs <==> x in w.epochs))
    requires forall x :: x != id && x in w.epochs ==> t.epochs[x] == w.epochs[x]
    requires t.log == w.log
    requires
      || (t.claims == w.claims && t.epochs[id].phase == Closed(NotCommitted))
      || (mine !in w.claims && t.claims == w.claims[mine := PROCESSING] && t.epochs[id].phase == Claimed)
    ensures Honest(t)
  {
    forall key ensures Written(t, key) <==> Written(w, key) {}
    hide Written;
    forall x, key ensures Committer(t, x, key) <==> Committer(w, x, key) {}
    forall key | key in t.claims && t.claims[key] == COMPLETED ensures Written(t, key) && exists x :: Committer(t, x, key) {
      assert key in w.claims && w.claims[key] == COMPLETED;
      var x :| Committer(w, x, key);
      assert Committer(t, x, key);
    }
  }

  lemma ClaimKeepsHonest(w: World, id: CallId)
    requires Honest(w) && CanMove(w, Claim(id))
    ensures Honest(Moved(w, Claim(id)))
  {
    hide Honest;
    OneCallKeepsHonest(w, Moved(w, Claim(id)), id, w.epochs[id].result.key);
  }

  lemma AppendKeepsHonest(w: World, id: CallId)
    requires Honest(w) && CanMove(w, Append(id))
    ensures Honest(Moved(w, Append(id)))
  {
    var t, mine := Moved(w, Append(id)), w.epochs[id].result.key;
    AppendWrites(w, id);
    forall key | Written(w, key) ensures Written(t, key) { WrittenStays(w, Append(id), key); }
    hide Written;
    forall x ensures Holds(t, x) <==> Holds(w, x) {}
    forall x, key ensures Committer(t, x, key) <==> Committer(w, x, key) {}
  }

  lemma FinishKeepsHonest(w: World, id: CallId, status: Status)
    requires Honest(w) && CanMove(w, Finish(id, status))
    ensures Honest(Moved(w, Finish(id, status)))
  {
    var t, mine := Moved(w, Finish(id, status)), w.epochs[id].result.key;
    assert Holds(w, id);
    forall key ensures Written(t, key) <==> Written(w, key) {}
    hide Written;
    forall x | Holds(t, x) ensures Holds(w, x) && x != id && t.epochs[x] == w.epochs[x] {}
    forall x, key ensures Committer(t, x, key) <==> Committer(w, x, key) || (x == id && key == mine && status == COMPLETED) {}
    forall key | key in t.claims && t.claims[key] == COMPLETED ensures Written(t, key) && exists x :: Committer(t, x, key) {
      if key == mine {
        assert Committer(t, id, key);
      } else {
        var x :| Committer(w, x, key);
        assert Committer(t, x, key);
      }
    }
  }

  lemma QuietKeepsHonest(w: World, m: Move)
    requires Honest(w) && CanMove(w, m) && (m.Evaluate? || m.Crash?)
    ensures Honest(Moved(w, m))
  {
    var t := Moved(w, m);
    forall key ensures Written(t, key) <==> Written(w, key) {}
    hide Written;
    forall x | Holds(t, x) ensures Holds(w, x) && t.epochs[x] == w.epochs[x] {}
    forall x, key ensures Committer(t, x, key) <==> Committer(w, x, key) {}
  }

  lemma {:induction false} PlayKeepsHonest(w: World, moves: seq<Move>)
    requires Honest(w)
    ensures Honest(Played(w, moves))
    decreases moves
  {
    hide Honest, CanMove;
    if moves != [] {
      var m := moves[0];
      if CanMove(w, m) {
        match m
        case Claim(id) => ClaimKeepsHonest(w, id);
        case Append(id) => AppendKeepsHonest(w, id);
        case Finish(id, status) => FinishKeepsHonest(w, id, status);
        case _ => QuietKeepsHonest(w, m);
      }
      hide Moved;
      PlayKeepsHonest(Moved(w, m), moves[1..]);
    }
  }

  /**
   * However epochs, failures and crashes interleave, a claim is COMPLETED if and only if some call has
   * committed under its key, and then the key's batch is in the log.
   */
  lemma CompletedMeansCommitted(moves: seq<Move>, key: Key)
    ensures var w := Played(NOTHING, moves);
      && (key in w.claims && w.claims[key] == COMPLETED <==> exists id :: Committer(w, id, key))
      && (key in w.claims && w.claims[key] == COMPLETED ==> Written(w, key))
  {
    hide Played, Written;
    PlayKeepsHonest(NOTHING, moves);
  }
}
