/**
 * Laws of the rolling optimizer service: the supersession chain over any history of calls and
 * restarts, and at most one batch per claim key under any interleaving of processes and crashes.
 */
module RollingLaws {
  import opened RollingService

  // ----- Sequential calls, with restarts ---------------------------------------------------------

  datatype Call =
    | RunOnce(result: EpochResult, staged: PackageIds, fate: Fate)
    | Restart

  function Step(s: Service, c: Call): Service {
    match c
    case RunOnce(result, staged, fate) => AfterCall(s, result, staged, fate)
    case Restart => Service(s.tables, BLANK, s.era + 1)
  }

  function Run(s: Service, calls: seq<Call>): Service
    decreases calls
  {
    if calls == [] then s else Run(Step(s, calls[0]), calls[1..])
  }

  const START := Service(Tables(map[], map[]), BLANK, 0)

  function Superseded(b: Batch): Option<PlanEvent> {
    if |b.events| == 3 then Some(b.events[2]) else None
  }

  /** A batch says which plan it brings, and nothing else, before any supersession. */
  ghost predicate WellFormed(stream: Stream, b: Batch) {
    && 2 <= |b.events| <= 3
    && b.events[0].PlanGenerated? && b.events[1].PlanAccepted?
    && StreamOf(b.events[1].accepted.trailerId) == stream
    && (|b.events| == 3 ==> b.events[2].PlanSuperseded?)
  }

  /** `next` supersedes exactly the plan and the staged set of the batch before it. */
  ghost predicate Supersedes(prior: Batch, next: Batch)
    requires 2 <= |prior.events| && prior.events[1].PlanAccepted?
  {
    && Superseded(next).Some? && Superseded(next).value.PlanSuperseded?
    && Superseded(next).value.priorPlanId == prior.events[1].accepted.planId
    && Superseded(next).value.supersededPackageIds == prior.staged
  }

  /** Consecutive batches of one trailer are chained exactly when one service wrote both. */
  ghost predicate Chained(stream: Stream, batches: seq<Batch>) {
    && (forall b :: b in batches ==> WellFormed(stream, b))
    && (batches != [] ==> Superseded(batches[0]).None?)
    && forall k :: 0 <= k < |batches| - 1 ==>
         && WellFormed(stream, batches[k])
         && (Superseded(batches[k + 1]).Some? <==> batches[k].era == batches[k + 1].era)
         && (Superseded(batches[k + 1]).Some? ==> Supersedes(batches[k], batches[k + 1]))
  }

  /** The service remembers a prior plan exactly for the trailers it has itself committed for. */
  ghost predicate Remembers(s: Service, stream: Stream) {
    var batches := Batches(s.tables, stream);
    && (stream in s.memory.priorStaged <==> stream in s.memory.priorPlanId)
    && (stream in s.memory.priorStaged <==> batches != [] && batches[|batches| - 1].era == s.era)
    && (stream in s.memory.priorStaged ==>
          var last := batches[|batches| - 1];
          && s.memory.priorStaged[stream] == last.staged
          && 2 <= |last.events| && last.events[1].PlanAccepted?
          && s.memory.priorPlanId[stream] == last.events[1].accepted.planId)
    && forall b :: b in batches ==> b.era <= s.era
  }

  ghost predicate Sound(s: Service) {
    forall stream :: Chained(stream, Batches(s.tables, stream)) && Remembers(s, stream)
  }

  lemma AppendedStaysSound(s: Service, result: EpochResult, staged: PackageIds, stream: Stream)
    requires Chained(stream, Batches(s.tables, stream)) && Remembers(s, stream) && Commits(s, result)
    ensures var t := Appended(s, result, staged);
      Chained(stream, Batches(t.tables, stream)) && Remembers(t, stream)
  {
    var a := result.accepted.value;
    var before := Batches(s.tables, stream);
    if stream == StreamOf(a.trailerId) {
      var t := Appended(s, result, staged);
      var batch := Batch(PlanBatch(s.memory, result.generated.value, a), result.key, staged, s.era);
      assert Batches(t.tables, stream) == before + [batch];
      assert WellFormed(stream, batch);
      ChainGrows(stream, before, batch, s);
    }
  }

  lemma ChainGrows(stream: Stream, before: seq<Batch>, batch: Batch, s: Service)
    requires Chained(stream, before) && WellFormed(stream, batch) && batch.era == s.era
    requires Batches(s.tables, stream) == before && Remembers(s, stream)
    requires Superseded(batch).Some? <==> stream in s.memory.priorStaged
    requires stream in s.memory.priorStaged ==>
      && Superseded(batch).value.PlanSuperseded?
      && Superseded(batch).value.priorPlanId == s.memory.priorPlanId[stream]
      && Superseded(batch).value.supersededPackageIds == s.memory.priorStaged[stream]
    ensures Chained(stream, before + [batch])
  {
    var after := before + [batch];
    forall k | 0 <= k < |after| - 1
      ensures WellFormed(stream, after[k])
      ensures Superseded(after[k + 1]).Some? <==> after[k].era == after[k + 1].era
      ensures Superseded(after[k + 1]).Some? ==> Supersedes(after[k], after[k + 1]) {
      assert after[k] == before[k] && before[k] in before;
      if k + 1 < |before| { assert after[k + 1] == before[k + 1]; }
    }
  }

  lemma StepStaysSound(s: Service, c: Call)
    requires Sound(s)
    ensures Sound(Step(s, c))
  {
    hide Chained, PlanBatch;
    var t := Step(s, c);
    forall stream ensures Chained(stream, Batches(t.tables, stream)) && Remembers(t, stream) {
      assert Chained(stream, Batches(s.tables, stream)) && Remembers(s, stream);
      if c.RunOnce? && Commits(s, c.result) && c.fate != AppendThrows {
        AppendedStaysSound(s, c.result, c.staged, stream);
        assert Batches(t.tables, stream) == Batches(Appended(s, c.result, c.staged).tables, stream);
      } else {
        assert Batches(t.tables, stream) == Batches(s.tables, stream);
      }
    }
  }

  lemma {:induction false} RunStaysSound(s: Service, calls: seq<Call>)
    requires Sound(s)
    ensures Sound(Run(s, calls))
    decreases calls
  {
    hide Sound, Step;
    if calls != [] {
      StepStaysSound(s, calls[0]);
      RunStaysSound(Step(s, calls[0]), calls[1..]);
    }
  }

  /**
   * Every plan after a trailer's first names the plan immediately before it and exactly the set
   * that was staged when that one committed, if and only if the same service committed both.
   */
  lemma SupersessionChain(calls: seq<Call>, stream: Stream)
    ensures Chained(stream, Batches(Run(START, calls).tables, stream))
  {
    hide Run, Chained;
    StartIsSound();
    RunStaysSound(START, calls);
  }

  lemma StartIsSound()
    ensures Sound(START)
  {
  }

  // ----- Concurrent epochs, crashes and several processes -----------------------------------------

  type CallId = nat

  datatype Phase = Evaluated | Claimed | Wrote | Closed(outcome: Outcome) | Lost

  datatype Epoch = Epoch(result: EpochResult, phase: Phase)

  /** `log` holds every committed batch in commit order with the call that wrote it. */
  datatype World = World(claims: map<Key, Status>, log: seq<(CallId, Key)>, epochs: map<CallId, Epoch>)

  datatype Move =
    | Evaluate(id: CallId, result: EpochResult)
    | Claim(id: CallId)
    | Append(id: CallId)
    | Finish(id: CallId, status: Status)
    | Crash(id: CallId)

  predicate CanMove(w: World, m: Move) {
    match m
    case Evaluate(id, _) => id !in w.epochs
    case Claim(id) => id in w.epochs && w.epochs[id].phase.Evaluated?
    case Append(id) => id in w.epochs && w.epochs[id].phase.Claimed?
    case Finish(id, status) =>
      && id in w.epochs && w.epochs[id].result.key in w.claims
      && ((status == COMPLETED && w.epochs[id].phase.Wrote?)
          || (status == FAILED && (w.epochs[id].phase.Claimed? || w.epochs[id].phase.Wrote?)))
    case Crash(id) => id in w.epochs && !w.epochs[id].phase.Closed?
  }

  function Moved(w: World, m: Move): World {
    if !CanMove(w, m) then w
    else
      match m
      case Evaluate(id, result) => w.(epochs := w.epochs[id := Epoch(result, Evaluated)])
      case Claim(id) =>
        var result := w.epochs[id].result;
        if result.accepted.Some? && result.generated.Some? && result.key !in w.claims
        then World(w.claims[result.key := PROCESSING], w.log, w.epochs[id := Epoch(result, Claimed)])
        else w.(epochs := w.epochs[id := Epoch(result, Closed(NotCommitted))])
      case Append(id) =>
        var result := w.epochs[id].result;
        w.(log := w.log + [(id, result.key)], epochs := w.epochs[id := Epoch(result, Wrote)])
      case Finish(id, status) =>
        var result := w.epochs[id].result;
        w.(claims := w.claims[result.key := status],
           epochs := w.epochs[id := Epoch(result, Closed(if status == COMPLETED then Committed else Threw))])
      case Crash(id) => w.(epochs := w.epochs[id := w.epochs[id].(phase := Lost)])
  }

  function Played(w: World, moves: seq<Move>): World
    decreases moves
  {
    if moves == [] then w else Played(Moved(w, moves[0]), moves[1..])
  }

  predicate Holds(w: World, id: CallId) {
    id in w.epochs && (w.epochs[id].phase.Claimed? || w.epochs[id].phase.Wrote?)
  }

  predicate MayStillWrite(w: World, id: CallId) {
    id in w.epochs && w.epochs[id].phase.Claimed?
  }

  /** A key is claimed before anything is written for it, by one call, which writes once. */
  ghost predicate AtMostOnce(w: World) {
    && (forall i :: 0 <= i < |w.log| ==> w.log[i].1 in w.claims)
    && (forall id :: Holds(w, id) ==> w.epochs[id].result.key in w.claims)
    && (forall i, j :: 0 <= i < j < |w.log| ==> w.log[i].1 != w.log[j].1)
    && (forall id, i :: MayStillWrite(w, id) && 0 <= i < |w.log| ==> w.log[i].1 != w.epochs[id].result.key)
    && (forall a, b :: MayStillWrite(w, a) && MayStillWrite(w, b) && a != b ==>
          w.epochs[a].result.key != w.epochs[b].result.key)
  }

  lemma AppendKeepsAtMostOnce(w: World, id: CallId)
    requires AtMostOnce(w) && CanMove(w, Append(id))
    ensures AtMostOnce(Moved(w, Append(id)))
  {
    var t := Moved(w, Append(id));
    assert MayStillWrite(w, id) && Holds(w, id);
    assert forall other :: MayStillWrite(t, other) ==> other != id && MayStillWrite(w, other);
    assert forall other :: Holds(t, other) ==> Holds(w, other);
  }

  lemma QuietMoveKeepsAtMostOnce(w: World, m: Move)
    requires AtMostOnce(w) && CanMove(w, m) && !m.Append?
    ensures AtMostOnce(Moved(w, m))
  {
    var t := Moved(w, m);
    assert t.log == w.log && forall key :: key in w.claims ==> key in t.claims;
    forall id | Holds(t, id) ensures t.epochs[id].result.key in t.claims {
      if id != m.id { assert Holds(w, id); }
      if id == m.id && !m.Claim? { assert Holds(w, id); }
    }
    forall id | MayStillWrite(t, id) && !(m.Claim? && id == m.id) ensures MayStillWrite(w, id) && t.epochs[id] == w.epochs[id] {}
    if m.Claim? && MayStillWrite(t, m.id) {
      var key := w.epochs[m.id].result.key;
      forall id | MayStillWrite(w, id) ensures w.epochs[id].result.key != key { assert Holds(w, id); }
    }
  }

  lemma MoveKeepsAtMostOnce(w: World, m: Move)
    requires AtMostOnce(w)
    ensures AtMostOnce(Moved(w, m))
    ensures forall key :: key in w.claims ==> key in Moved(w, m).claims
  {
    if CanMove(w, m) {
      if m.Append? { AppendKeepsAtMostOnce(w, m.id); } else { QuietMoveKeepsAtMostOnce(w, m); }
    }
  }

  lemma {:induction false} PlayKeepsAtMostOnce(w: World, moves: seq<Move>)
    requires AtMostOnce(w)
    ensures AtMostOnce(Played(w, moves))
    ensures forall key :: key in w.claims ==> key in Played(w, moves).claims
    decreases moves
  {
    hide AtMostOnce, Moved;
    if moves != [] {
      MoveKeepsAtMostOnce(w, moves[0]);
      PlayKeepsAtMostOnce(Moved(w, moves[0]), moves[1..]);
    }
  }

  const NOTHING := World(map[], [], map[])

  /** However epochs, failures and restarts interleave, two batches in the log never share a key. */
  lemma OneBatchPerKey(moves: seq<Move>, i: nat, j: nat)
    requires i < j < |Played(NOTHING, moves).log|
    ensures Played(NOTHING, moves).log[i].1 != Played(NOTHING, moves).log[j].1
  {
    hide Played;
    PlayKeepsAtMostOnce(NOTHING, moves);
  }

  ghost predicate Written(w: World, key: Key) {
    exists i :: 0 <= i < |w.log| && w.log[i].1 == key
  }

  /** A claim without a writer left to honour it: the call crashed or failed before its append. */
  ghost predicate Abandoned(w: World, key: Key) {
    key in w.claims && !Written(w, key) && forall id :: MayStillWrite(w, id) ==> w.epochs[id].result.key != key
  }

  lemma AbandonedStays(w: World, m: Move, key: Key)
    requires Abandoned(w, key)
    ensures Abandoned(Moved(w, m), key)
  {
    var t := Moved(w, m);
    forall id | MayStillWrite(t, id) ensures t.epochs[id].result.key != key {
      if MayStillWrite(w, id) { assert w.epochs[id].result.key != key; }
    }
    forall i | 0 <= i < |t.log| ensures t.log[i].1 != key {
      if i < |w.log| { assert w.log[i].1 != key; } else { assert MayStillWrite(w, m.id); }
    }
  }

  /** A failed or crashed epoch is never retried: its key stays claimed and stays unwritten. */
  lemma {:induction false} AbandonedForGood(w: World, moves: seq<Move>, key: Key)
    requires Abandoned(w, key)
    ensures Abandoned(Played(w, moves), key)
    decreases moves
  {
    hide Abandoned, Moved;
    if moves != [] {
      AbandonedStays(w, moves[0], key);
      AbandonedForGood(Moved(w, moves[0]), moves[1..], key);
    }
  }

  // ----- When a key can still be written ------------------------------------------------------------

  predicate Offers(result: EpochResult) { result.accepted.Some? && result.generated.Some? }

  /** Any accepted plan whose process dies between claim and append, or whose append fails, abandons its key. */
  lemma ACrashAbandons(result: EpochResult)
    requires Offers(result)
    ensures Abandoned(Played(NOTHING, [Evaluate(0, result), Claim(0), Crash(0)]), result.key)
    ensures Abandoned(Played(NOTHING, [Evaluate(0, result), Claim(0), Finish(0, FAILED)]), result.key)
  {
    var claimed := Moved(Moved(NOTHING, Evaluate(0, result)), Claim(0));
    PlayedThree(NOTHING, Evaluate(0, result), Claim(0), Crash(0));
    PlayedThree(NOTHING, Evaluate(0, result), Claim(0), Finish(0, FAILED));
    assert claimed.epochs.Keys == {0};
  }

  lemma PlayedThree(w: World, a: Move, b: Move, c: Move)
    ensures Played(w, [a, b, c]) == Moved(Moved(Moved(w, a), b), c)
  {
    hide Moved;
    assert [a, b, c][1..] == [b, c] && [b, c][1..] == [c] && [c][1..] == [];
    assert Played(Moved(Moved(w, a), b), [c]) == Played(Moved(Moved(Moved(w, a), b), c), []);
  }

  /** Some call id is not in use yet. */
  lemma {:induction false} FreshCall(ids: set<CallId>) returns (id: CallId)
    ensures forall x :: x in ids ==> x < id
  {
    id := 0;
    if ids != {} {
      var x :| x in ids;
      assert forall y :: y in ids ==> y == x || y in ids - {x};
      var above := FreshCall(ids - {x});
      id := if x < above then above else x + 1;
    }
  }

  ghost predicate LeadsToBatch(w: World, moves: seq<Move>, key: Key) { Written(Played(w, moves), key) }

  /** Whatever happened so far, a key can still get its batch if and only if it is not abandoned. */
  lemma WritableIffNotAbandoned(w: World, key: Key)
    ensures (exists moves :: LeadsToBatch(w, moves, key)) <==> !Abandoned(w, key)
  {
    if Abandoned(w, key) {
      forall moves ensures !LeadsToBatch(w, moves, key) { AbandonedForGood(w, moves, key); }
    } else {
      var moves := AWayToWrite(w, key);
      assert LeadsToBatch(w, moves, key);
    }
  }

  /** The way: nothing when written, the claimant's append, or a new epoch that claims and appends. */
  lemma AWayToWrite(w: World, key: Key) returns (moves: seq<Move>)
    requires !Abandoned(w, key)
    ensures Written(Played(w, moves), key)
  {
    if Written(w, key) {
      moves := [];
      assert Played(w, moves) == w;
    } else if key in w.claims {
      var id :| MayStillWrite(w, id) && w.epochs[id].result.key == key;
      moves := [Append(id)];
      AppendWrites(w, id);
      assert Played(w, moves) == Played(Moved(w, Append(id)), []);
    } else {
      var id := FreshCall(w.epochs.Keys);
      var result := EpochResult(Some(Accepted("", "", "", "", 0)), Some(Generated("", "")), [], key);
      moves := [Evaluate(id, result), Claim(id), Append(id)];
      PlayedThree(w, moves[0], moves[1], moves[2]);
      var evaluated := Moved(w, moves[0]);
      assert id !in w.epochs && MayStillWrite(Moved(evaluated, moves[1]), id);
      AppendWrites(Moved(evaluated, moves[1]), id);
    }
  }

  lemma AppendWrites(w: World, id: CallId)
    requires MayStillWrite(w, id)
    ensures Written(Moved(w, Append(id)), w.epochs[id].result.key)
  {
    assert Moved(w, Append(id)).log[|w.log|].1 == w.epochs[id].result.key;
  }

  // ----- The same for one caller after another -------------------------------------------------------

  predicate Tries(c: Call, key: Key) { c.RunOnce? && Offers(c.result) && c.result.key == key }

  predicate Tried(calls: seq<Call>, key: Key) { exists i :: 0 <= i < |calls| && Tries(calls[i], key) }

  /** The first call that brings a plan for the key gets through its append. */
  predicate FirstTryAppends(calls: seq<Call>, key: Key)
    decreases calls
  {
    calls != [] && if Tries(calls[0], key) then calls[0].fate != AppendThrows else FirstTryAppends(calls[1..], key)
  }

  ghost predicate InLog(t: Tables, key: Key) {
    exists stream, i :: 0 <= i < |Batches(t, stream)| && Batches(t, stream)[i].key == key
  }

  lemma AppendedIsInLog(s: Service, result: EpochResult, staged: PackageIds, key: Key)
    requires Commits(s, result)
    ensures InLog(Appended(s, result, staged).tables, key) <==> InLog(s.tables, key) || key == result.key
  {
    hide PlanBatch;
    var t := Appended(s, result, staged);
    var mine := StreamOf(result.accepted.value.trailerId);
    var n := |Batches(s.tables, mine)|;
    assert Batches(t.tables, mine)[n].key == result.key && Batches(t.tables, mine)[..n] == Batches(s.tables, mine);
    if InLog(s.tables, key) {
      var stream, i :| 0 <= i < |Batches(s.tables, stream)| && Batches(s.tables, stream)[i].key == key;
      assert Batches(t.tables, stream)[i] == Batches(s.tables, stream)[i];
    }
    if InLog(t.tables, key) && key != result.key {
      var stream, i :| 0 <= i < |Batches(t.tables, stream)| && Batches(t.tables, stream)[i].key == key;
      assert i < |Batches(s.tables, stream)| && Batches(s.tables, stream)[i].key == key;
    }
  }

  lemma SameLogSameKeys(t: Tables, u: Tables, key: Key)
    requires t.log == u.log
    ensures InLog(t, key) <==> InLog(u, key)
  {
    assert forall stream :: Batches(t, stream) == Batches(u, stream);
  }

  lemma StepWrites(s: Service, c: Call, key: Key)
    ensures var t := Step(s, c);
      && (key in t.tables.claims <==> key in s.tables.claims || Tries(c, key))
      && (InLog(t.tables, key) <==>
            InLog(s.tables, key) || (key !in s.tables.claims && Tries(c, key) && c.fate != AppendThrows))
  {
    hide InLog, PlanBatch;
    if c.RunOnce? && Commits(s, c.result) && c.fate != AppendThrows {
      AppendedIsInLog(s, c.result, c.staged, key);
      SameLogSameKeys(Appended(s, c.result, c.staged).tables, Step(s, c).tables, key);
    } else {
      SameLogSameKeys(s.tables, Step(s, c).tables, key);
    }
  }

  lemma {:induction false} RunWrites(s: Service, calls: seq<Call>, key: Key)
    ensures var t := Run(s, calls);
      && (key in t.tables.claims <==> key in s.tables.claims || Tried(calls, key))
      && (InLog(t.tables, key) <==> InLog(s.tables, key) || (key !in s.tables.claims && FirstTryAppends(calls, key)))
    decreases calls
  {
    hide Step, InLog, Tries;
    if calls != [] {
      StepWrites(s, calls[0], key);
      RunWrites(Step(s, calls[0]), calls[1..], key);
      assert Tried(calls, key) <==> Tries(calls[0], key) || Tried(calls[1..], key) by {
        if Tried(calls[1..], key) {
          var i :| 0 <= i < |calls| - 1 && Tries(calls[1..][i], key);
          assert Tries(calls[i + 1], key);
        }
        if Tried(calls, key) && !Tries(calls[0], key) {
          var i :| 0 <= i < |calls| && Tries(calls[i], key);
          assert Tries(calls[1..][i - 1], key);
        }
      }
    }
  }

  /**
   * Over any calls and restarts a key is claimed once some call has tried it, and its batch is in the
   * log if and only if the first of those tries got through its append: later tries count for nothing.
   */
  lemma OnlyTheFirstTryCounts(calls: seq<Call>, key: Key)
    ensures key in Run(START, calls).tables.claims <==> Tried(calls, key)
    ensures InLog(Run(START, calls).tables, key) <==> FirstTryAppends(calls, key)
  {
    RunWrites(START, calls, key);
  }

  /** So a plan offered now reaches the log if and only if its key has no row in the claims table. */
  lemma CommitsIffUnclaimed(calls: seq<Call>, result: EpochResult, staged: PackageIds)
    requires Offers(result)
    ensures var s := Run(START, calls);
      var t := AfterCall(s, result, staged, AllWell);
      var stream := StreamOf(result.accepted.value.trailerId);
      && (Batches(t.tables, stream) != Batches(s.tables, stream) <==> result.key !in s.tables.claims)
      && (result.key !in s.tables.claims <==> !Tried(calls, result.key))
  {
    hide Run, PlanBatch;
    OnlyTheFirstTryCounts(calls, result.key);
  }

  /** A restart between two commits for a trailer leaves the second without a supersession. */
  lemma ARestartBreaksTheChain(first: EpochResult, second: EpochResult, staged: PackageIds, later: PackageIds)
    requires Offers(first) && Offers(second) && first.key != second.key
    requires first.accepted.value.trailerId == second.accepted.value.trailerId
    ensures var calls := [RunOnce(first, staged, AllWell), Restart, RunOnce(second, later, AllWell)];
      var batches := Batches(Run(START, calls).tables, StreamOf(second.accepted.value.trailerId));
      |batches| == 2 && Superseded(batches[1]).None?
  {
    var a, b := RunOnce(first, staged, AllWell), RunOnce(second, later, AllWell);
    var one := Step(START, a);
    var two := Step(one, Restart);
    assert [a, Restart, b][1..] == [Restart, b] && [Restart, b][1..] == [b] && [b][1..] == [];
    assert Run(two, [b]) == Run(Step(two, b), []) == Step(two, b);
    assert |PlanBatch(two.memory, second.generated.value, second.accepted.value)| == 2;
  }
}
