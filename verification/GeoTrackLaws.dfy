/**
 * The geo-track tables against a rebuild, over any passes that may die between any two writes.
 */
module GeoTrackLaws {
  import opened GeoTrack

  /** A pass that finds the first `seen` events in the log and dies after `steps` steps, if not done before. */
  datatype PassRun = PassRun(seen: nat, steps: nat)

  function Found(keyframes: map<FrameKey, Spot>, k: FrameKey): Option<Spot> {
    if k in keyframes then Some(keyframes[k]) else None
  }

  function Seen(log: seq<Stored>, n: nat): seq<Stored> {
    if n <= |log| then log[..n] else log
  }

  function Live(half: HalfWay, log: seq<Stored>, passes: seq<PassRun>): Tables {
    if passes == [] then TRUNCATED
    else
      var t, p := Live(half, log, passes[..|passes| - 1]), passes[|passes| - 1];
      Pass(half, t, Unread(Seen(log, p.seen), t.checkpoint), p.steps)
  }

  /** Dying on the event after its index write would drop its keyframe: an arrival takes the leg with it. */
  predicate DropsAFrame(half: HalfWay, t: Tables, s: Stored) {
    var frame := Implied(half, t.index, s);
    s.event.TrailerArrivedAtHub? && frame.Some? && Found(t.keyframes, frame.value.key) != Some(frame.value.spot)
  }

  // ----- The keyframes lost on the way --------------------------------------------------------

  function LostIn(half: HalfWay, t: Tables, s: Stored, steps: nat, lost: set<FrameKey>): set<FrameKey> {
    var frame := Implied(half, t.index, s);
    if steps == 0 || frame.None? then lost
    else if steps == 1 && DropsAFrame(half, t, s) then lost + {frame.value.key}
    else lost - {frame.value.key}
  }

  function LostByPass(half: HalfWay, t: Tables, events: seq<Stored>, steps: nat, lost: set<FrameKey>): set<FrameKey>
    decreases |events|
  {
    if events == [] then lost
    else if steps < 3 then LostIn(half, t, events[0], steps, lost)
    else LostByPass(half, Fold(half, t, events[0]), events[1..], steps - 3, LostIn(half, t, events[0], 3, lost))
  }

  /** Keyframes of arrivals a pass died on between dropping the leg and writing, less those written since. */
  function Lost(half: HalfWay, log: seq<Stored>, passes: seq<PassRun>): set<FrameKey> {
    if passes == [] then {}
    else
      var before, p := passes[..|passes| - 1], passes[|passes| - 1];
      var t := Live(half, log, before);
      LostByPass(half, t, Unread(Seen(log, p.seen), t.checkpoint), p.steps, Lost(half, log, before))
  }

  // ----- How the tables follow the log ----------------------------------------------------------

  ghost predicate Ascending(log: seq<Stored>) {
    && (forall s :: s in log ==> s.globalSeq > 0)
    && forall i, j :: 0 <= i < j < |log| ==> log[i].globalSeq < log[j].globalSeq
  }

  function Position(log: seq<Stored>): nat {
    if log == [] then 0 else log[|log| - 1].globalSeq
  }

  /** Equal but for exactly the keyframes lost. */
  ghost predicate Near(t: Tables, r: Tables, lost: set<FrameKey>) {
    && t.index == r.index && t.checkpoint == r.checkpoint
    && forall k :: k in lost <==> Found(t.keyframes, k) != Found(r.keyframes, k)
  }

  /** The first write of the event has been made. */
  ghost predicate Begun(t: Tables, s: Stored) {
    Indexed(t.index, s) == t.index
  }

  /** `r` is the rebuild before the event: the event is half folded, and finishing it leads near. */
  ghost predicate Amid(half: HalfWay, t: Tables, r: Tables, s: Stored, lost: set<FrameKey>) {
    t.checkpoint == r.checkpoint && Begun(t, s) && Near(Fold(half, t, s), Fold(half, r, s), lost)
  }

  ghost predicate Follows(half: HalfWay, log: seq<Stored>, t: Tables, lost: set<FrameKey>, done: nat) {
    && done <= |log|
    && (|| Near(t, Rebuilt(half, log[..done]), lost)
        || (done < |log| && Amid(half, t, Rebuilt(half, log[..done]), log[done], lost)))
  }

  /** A death before the first write, and a whole fold. */
  lemma NearStep(half: HalfWay, t: Tables, r: Tables, s: Stored, lost: set<FrameKey>)
    requires Near(t, r, lost)
    ensures Near(Fold(half, t, s), Fold(half, r, s), LostIn(half, t, s, 3, lost))
  {
    hide Indexed, Implied;
  }

  /** Folding an event again once its index is written. */
  lemma Refold(half: HalfWay, index: GeoState, s: Stored)
    ensures Indexed(Indexed(index, s), s) == Indexed(index, s)
    ensures Implied(half, Indexed(index, s), s) == if s.event.TrailerArrivedAtHub? then None else Implied(half, index, s)
  {
    match s.event
    case TrailerArrivedAtHub(_, trip, _) => assert index.inflight - {trip} - {trip} == index.inflight - {trip};
    case RouteRegistered(from, to, geometry) =>
      assert index.routes[(from, to) := geometry][(from, to) := geometry] == index.routes[(from, to) := geometry];
    case TrailerDeparted(_, trip, from, to) =>
      var leg := Leg((from, to), s.at);
      assert index.inflight[trip := leg][trip := leg] == index.inflight[trip := leg];
    case _ =>
  }

  lemma NearDies(half: HalfWay, t: Tables, r: Tables, s: Stored, steps: nat, lost: set<FrameKey>)
    requires Near(t, r, lost) && 1 <= steps <= 2
    ensures Amid(half, FoldPart(half, t, s, steps), r, s, LostIn(half, t, s, steps, lost))
  {
    Refold(half, t.index, s);
    hide Indexed, Implied;
  }

  lemma AmidStep(half: HalfWay, t: Tables, r: Tables, s: Stored, steps: nat, lost: set<FrameKey>)
    requires Amid(half, t, r, s, lost) && steps <= 3
    ensures LostIn(half, t, s, steps, lost) == lost
    ensures steps < 3 ==> Amid(half, FoldPart(half, t, s, steps), r, s, lost)
  {
    Refold(half, r.index, s);
    Refold(half, t.index, s);
    hide Indexed, Implied;
    var frame := Implied(half, t.index, s);
    if frame.Some? {
      assert Found(Fold(half, t, s).keyframes, frame.value.key) == Some(frame.value.spot);
      assert Found(Fold(half, r, s).keyframes, frame.value.key) == Some(frame.value.spot);
    }
    assert Fold(half, FoldPart(half, t, s, steps), s) == Fold(half, t, s);
  }

  lemma {:induction false} FoldOneMore(half: HalfWay, t: Tables, events: seq<Stored>, s: Stored)
    ensures FoldAll(half, t, events + [s]) == Fold(half, FoldAll(half, t, events), s)
    decreases |events|
  {
    hide Fold;
    if events == [] {
      assert (events + [s])[1..] == [];
    } else {
      assert (events + [s])[0] == events[0] && (events + [s])[1..] == events[1..] + [s];
      FoldOneMore(half, Fold(half, t, events[0]), events[1..], s);
    }
  }

  lemma RebuiltOneMore(half: HalfWay, log: seq<Stored>, done: nat)
    requires done < |log|
    ensures Rebuilt(half, log[..done + 1]) == Fold(half, Rebuilt(half, log[..done]), log[done])
  {
    hide FoldAll, Fold;
    FoldOneMore(half, TRUNCATED, log[..done], log[done]);
    assert log[..done + 1] == log[..done] + [log[done]];
  }

  lemma RebuiltPosition(half: HalfWay, log: seq<Stored>)
    ensures Rebuilt(half, log).checkpoint == Position(log)
  {
    if log != [] {
      RebuiltOneMore(half, log, |log| - 1);
      assert log[..|log|] == log;
      hide Rebuilt, Indexed, Implied;
    }
  }

  lemma {:induction false} PassFollows(half: HalfWay, log: seq<Stored>, t: Tables, events: seq<Stored>, steps: nat, lost: set<FrameKey>, done: nat)
    returns (reached: nat)
    requires Follows(half, log, t, lost, done) && done + |events| <= |log| && events == log[done..done + |events|]
    ensures Follows(half, log, Pass(half, t, events, steps), LostByPass(half, t, events, steps, lost), reached)
    ensures steps >= 3 * |events| ==> reached == done + |events|
    decreases |events|
  {
    hide Near, Amid, Begun, Rebuilt, LostIn, FoldPart;
    reached := done;
    if events != [] {
      var s, r := events[0], Rebuilt(half, log[..done]);
      assert s == log[done];
      if steps < 3 {
        OnePart(half, t, r, s, steps, lost);
      } else {
        OneFold(half, t, r, s, lost);
        RebuiltOneMore(half, log, done);
        assert events[1..] == log[done + 1..done + 1 + |events[1..]|];
        reached := PassFollows(half, log, Fold(half, t, s), events[1..], steps - 3, LostIn(half, t, s, 3, lost), done + 1);
      }
    }
  }

  lemma OnePart(half: HalfWay, t: Tables, r: Tables, s: Stored, steps: nat, lost: set<FrameKey>)
    requires (Near(t, r, lost) || Amid(half, t, r, s, lost)) && steps < 3
    ensures var t', lost' := FoldPart(half, t, s, steps), LostIn(half, t, s, steps, lost);
      Near(t', r, lost') || Amid(half, t', r, s, lost')
  {
    if Amid(half, t, r, s, lost) {
      AmidStep(half, t, r, s, steps, lost);
    } else if steps > 0 {
      NearDies(half, t, r, s, steps, lost);
    }
  }

  lemma OneFold(half: HalfWay, t: Tables, r: Tables, s: Stored, lost: set<FrameKey>)
    requires Near(t, r, lost) || Amid(half, t, r, s, lost)
    ensures Near(Fold(half, t, s), Fold(half, r, s), LostIn(half, t, s, 3, lost))
  {
    if Amid(half, t, r, s, lost) {
      AmidStep(half, t, r, s, 3, lost);
    } else {
      NearStep(half, t, r, s, lost);
    }
  }

  /** After a prefix of an ascending log, what is unread is the rest of what is seen. */
  lemma {:induction false} UnreadIsTheRest(log: seq<Stored>, done: nat)
    requires Ascending(log) && done <= |log|
    ensures Unread(log, Position(log[..done])) == log[done..]
  {
    UnreadSkips(log, done, Position(log[..done]));
  }

  lemma {:induction false} UnreadSkips(log: seq<Stored>, done: nat, from: nat)
    requires Ascending(log) && done <= |log|
    requires forall i :: 0 <= i < |log| ==> (log[i].globalSeq > from <==> i >= done)
    ensures Unread(log, from) == log[done..]
  {
    if log == [] {
    } else if done == 0 {
      UnreadAll(log, from);
    } else {
      UnreadSkips(log[1..], done - 1, from);
      assert log[1..][done - 1..] == log[done..];
    }
  }

  lemma SeenUnread(log: seq<Stored>, done: nat, n: nat)
    requires Ascending(log) && done <= |log|
    ensures var events := Unread(Seen(log, n), Position(log[..done]));
      done + |events| <= |log| && events == log[done..done + |events|]
      && (n >= |log| ==> |events| == |log| - done)
  {
    var seen := Seen(log, n);
    if done <= |seen| {
      assert seen[..done] == log[..done];
      UnreadIsTheRest(seen, done);
      assert seen[done..] == log[done..|seen|];
    } else {
      UnreadSkips(seen, |seen|, Position(log[..done]));
    }
  }

  lemma FollowsPosition(half: HalfWay, log: seq<Stored>, t: Tables, lost: set<FrameKey>, done: nat)
    requires Follows(half, log, t, lost, done)
    ensures t.checkpoint == Position(log[..done])
  {
    hide Rebuilt, Fold, Indexed;
    RebuiltPosition(half, log[..done]);
  }

  lemma {:induction false} LiveFollows(half: HalfWay, log: seq<Stored>, passes: seq<PassRun>) returns (done: nat)
    requires Ascending(log)
    ensures Follows(half, log, Live(half, log, passes), Lost(half, log, passes), done)
    decreases |passes|
  {
    if passes == [] {
      done := 0;
      assert Near(TRUNCATED, Rebuilt(half, log[..0]), {});
    } else {
      var before, p := passes[..|passes| - 1], passes[|passes| - 1];
      var t, lost := Live(half, log, before), Lost(half, log, before);
      hide Follows, Pass, LostByPass, Unread;
      done := LiveFollows(half, log, before);
      FollowsPosition(half, log, t, lost, done);
      SeenUnread(log, done, p.seen);
      done := PassFollows(half, log, t, Unread(Seen(log, p.seen), t.checkpoint), p.steps, lost, done);
    }
  }

  // ----- What it means ------------------------------------------------------------------------------

  /**
   * Once caught up, the tables are those of a rebuild if and only if nothing was lost: no pass died
   * between dropping an arrived trip's leg and writing its keyframe, or what it lost was written since.
   */
  lemma LiveIsRebuiltIff(half: HalfWay, log: seq<Stored>, passes: seq<PassRun>)
    requires Ascending(log) && Live(half, log, passes).checkpoint == Position(log)
    ensures Live(half, log, passes) == Rebuilt(half, log) <==> Lost(half, log, passes) == {}
  {
    hide Live, Lost, Rebuilt;
    var t, lost := Live(half, log, passes), Lost(half, log, passes);
    var done := LiveFollows(half, log, passes);
    FollowsPosition(half, log, t, lost, done);
    assert done == |log|;
    assert log[..done] == log;
    NearIsEqualIff(t, Rebuilt(half, log), lost);
  }

  lemma NearIsEqualIff(t: Tables, r: Tables, lost: set<FrameKey>)
    requires Near(t, r, lost)
    ensures t == r <==> lost == {}
  {
    if lost == {} {
      forall k ensures k in t.keyframes <==> k in r.keyframes { assert Found(t.keyframes, k) == Found(r.keyframes, k); }
      forall k | k in t.keyframes ensures t.keyframes[k] == r.keyframes[k] { assert Found(t.keyframes, k) == Found(r.keyframes, k); }
      assert t.keyframes == r.keyframes;
    }
  }

  /** A last pass that sees the whole log and lives long enough catches up, whatever came before. */
  lemma LastPassCatchesUp(half: HalfWay, log: seq<Stored>, passes: seq<PassRun>, p: PassRun)
    requires Ascending(log) && p.seen >= |log| && p.steps >= 3 * |log|
    ensures Live(half, log, passes + [p]).checkpoint == Position(log)
  {
    var t, lost := Live(half, log, passes), Lost(half, log, passes);
    assert (passes + [p])[..|passes|] == passes;
    hide Follows, Pass, Unread, Lost, LostByPass;
    var done := LiveFollows(half, log, passes);
    FollowsPosition(half, log, t, lost, done);
    SeenUnread(log, done, p.seen);
    var events := Unread(Seen(log, p.seen), t.checkpoint);
    assert 3 * |events| <= 3 * |log|;
    var reached := PassFollows(half, log, t, events, p.steps, lost, done);
    assert reached == |log| && log[..reached] == log;
    FollowsPosition(half, log, Pass(half, t, events, p.steps), LostByPass(half, t, events, p.steps, lost), reached);
  }

  lemma {:induction false} PassLosesNothing(half: HalfWay, t: Tables, events: seq<Stored>, steps: nat)
    requires steps % 3 != 1
    ensures LostByPass(half, t, events, steps, {}) == {}
    decreases |events|
  {
    hide Implied, Fold;
    if events != [] {
      assert LostIn(half, t, events[0], if steps < 3 then steps else 3, {}) == {};
      if steps >= 3 { PassLosesNothing(half, Fold(half, t, events[0]), events[1..], steps - 3); }
    }
  }

  /** Dying anywhere but right after an index write loses nothing. */
  lemma {:induction false} NothingLost(half: HalfWay, log: seq<Stored>, passes: seq<PassRun>)
    requires forall p :: p in passes ==> p.steps % 3 != 1
    ensures Lost(half, log, passes) == {}
  {
    hide LostByPass, Unread, Live;
    if passes != [] {
      var before, p := passes[..|passes| - 1], passes[|passes| - 1];
      NothingLost(half, log, before);
      var t := Live(half, log, before);
      PassLosesNothing(half, t, Unread(Seen(log, p.seen), t.checkpoint), p.steps);
    }
  }

  /** Dying right after the index write is made good by the next pass, unless it drops an arrival's keyframe. */
  lemma RefoldIsFoldIff(half: HalfWay, t: Tables, s: Stored)
    ensures Fold(half, FoldPart(half, t, s, 1), s) == Fold(half, t, s) <==> !DropsAFrame(half, t, s)
  {
    Refold(half, t.index, s);
    hide Indexed, Implied;
    var frame := Implied(half, t.index, s);
    if s.event.TrailerArrivedAtHub? && frame.Some? {
      var key := frame.value.key;
      assert Found(Fold(half, FoldPart(half, t, s, 1), s).keyframes, key) == Found(t.keyframes, key);
      assert Found(Fold(half, t, s).keyframes, key) == Some(frame.value.spot);
      if Found(t.keyframes, key) == Some(frame.value.spot) {
        assert t.keyframes[key := frame.value.spot] == t.keyframes;
      }
    }
  }

  // ----- A keyframe lost for good ---------------------------------------------------------------

  const ROAD: Geometry := [LonLat(0.0, 0.0), LonLat(1.0, 0.0)]

  const ONE_TRIP: seq<Stored> := [
    Stored(1, 0, RouteRegistered("MEM", "BNA", ROAD)),
    Stored(2, 0, TrailerDeparted("T1", "TRIP1", "MEM", "BNA")),
    Stored(3, 240, TrailerArrivedAtHub("T1", "TRIP1", "BNA"))]

  const SET_OFF := FrameKey("T1", "TRIP1", Departing, 0)
  const GOT_THERE := FrameKey("T1", "TRIP1", Arriving, 240)

  /** The arrival's leg is gone, its keyframe is not written. */
  ghost predicate Missed(t: Tables) {
    && t.index == GeoState(map[("MEM", "BNA") := ROAD], map[])
    && t.keyframes == map[SET_OFF := Spot(ROAD[0], None)]
    && 2 <= t.checkpoint <= 3
  }

  /** Departed, the leg in flight. */
  const UNDERWAY := Tables(
    GeoState(map[("MEM", "BNA") := ROAD], map["TRIP1" := Leg(("MEM", "BNA"), 0)]), map[SET_OFF := Spot(ROAD[0], None)], 2)

  lemma TripSoFar(half: HalfWay, steps: nat)
    requires steps >= 6
    ensures Pass(half, TRUNCATED, ONE_TRIP, steps) == Pass(half, UNDERWAY, [ONE_TRIP[2]], steps - 6)
  {
    var first := Fold(half, TRUNCATED, ONE_TRIP[0]);
    assert first == Tables(GeoState(map[("MEM", "BNA") := ROAD], map[]), map[], 1);
    assert Fold(half, first, ONE_TRIP[1]) == UNDERWAY;
    assert ONE_TRIP[1..][0] == ONE_TRIP[1] && ONE_TRIP[1..][1..] == [ONE_TRIP[2]];
    assert Pass(half, TRUNCATED, ONE_TRIP, steps) == Pass(half, first, ONE_TRIP[1..], steps - 3);
  }

  lemma MissedStays(half: HalfWay, t: Tables, p: PassRun)
    requires Missed(t)
    ensures Missed(Pass(half, t, Unread(Seen(ONE_TRIP, p.seen), t.checkpoint), p.steps))
  {
    var done: nat := t.checkpoint;
    assert Position(ONE_TRIP[..done]) == done;
    SeenUnread(ONE_TRIP, done, p.seen);
    var events := Unread(Seen(ONE_TRIP, p.seen), done);
    if events != [] {
      assert done == 2 && events[0] == ONE_TRIP[2] && events[1..] == [];
      assert t.index.inflight - {"TRIP1"} == map[];
    }
  }

  /**
   * A pass that dies between dropping an arrived trip's leg and writing its keyframe loses that
   * keyframe: whatever passes follow, it is not there, though a rebuild of the same log has it.
   */
  lemma {:induction false} ALostArrival(half: HalfWay, more: seq<PassRun>)
    ensures Ascending(ONE_TRIP)
    ensures GOT_THERE in Rebuilt(half, ONE_TRIP).keyframes
    ensures Missed(Live(half, ONE_TRIP, [PassRun(3, 7)] + more)) && GOT_THERE !in Live(half, ONE_TRIP, [PassRun(3, 7)] + more).keyframes
    decreases |more|
  {
    RebuiltHasIt(half);
    if more == [] {
      DiesOnTheArrival(half);
      assert [PassRun(3, 7)] + more == [PassRun(3, 7)];
    } else {
      var before, p := more[..|more| - 1], more[|more| - 1];
      ALostArrival(half, before);
      var all := [PassRun(3, 7)] + more;
      assert all[..|all| - 1] == [PassRun(3, 7)] + before && all[|all| - 1] == p;
      MissedStays(half, Live(half, ONE_TRIP, [PassRun(3, 7)] + before), p);
      hide Pass, Unread;
    }
  }

  lemma RebuiltHasIt(half: HalfWay)
    ensures GOT_THERE in Rebuilt(half, ONE_TRIP).keyframes
  {
    TripSoFar(half, 9);
    PassEnds(half, TRUNCATED, ONE_TRIP, 9);
    PassEnds(half, UNDERWAY, [ONE_TRIP[2]], 3);
    assert Rebuilt(half, ONE_TRIP) == Fold(half, UNDERWAY, ONE_TRIP[2]);
  }

  lemma DiesOnTheArrival(half: HalfWay)
    ensures Missed(Live(half, ONE_TRIP, [PassRun(3, 7)]))
  {
    UnreadAll(ONE_TRIP, 0);
    assert Seen(ONE_TRIP, 3) == ONE_TRIP;
    assert Live(half, ONE_TRIP, []) == TRUNCATED;
    TripSoFar(half, 7);
    assert Live(half, ONE_TRIP, [PassRun(3, 7)]) == FoldPart(half, UNDERWAY, ONE_TRIP[2], 1);
    assert UNDERWAY.index.inflight - {"TRIP1"} == map[];
  }
}
