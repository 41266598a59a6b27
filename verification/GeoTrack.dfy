/**
 * The geo-track projection: where the trailers are known to be, as keyframes along the route
 * geometry. `Reduce` is the pure reducer, `Fold` what one event writes to the tables, and
 * `GeoTracker` the catch-up runner, whose pass reads the log after its checkpoint and writes event
 * by event without a transaction, so that the process may die between any two steps.
 */
module GeoTrack {
  datatype Option<T> = None | Some(value: T)

  type HubId = string
  type TrailerId = string
  type TripId = string
  type LegKey = (HubId, HubId)
  datatype LonLat = LonLat(lon: real, lat: real)
  type Geometry = seq<LonLat>

  /** Where a mid-leg stop is drawn: the point half way along the leg, by arc length. */
  type HalfWay = Geometry -> LonLat

  datatype FrameKind = Departing | Arriving | Resting | Refueling
  datatype FrameKey = FrameKey(trailer: TrailerId, trip: TripId, kind: FrameKind, t: int)
  datatype Spot = Spot(point: LonLat, duration: Option<int>)
  datatype Frame = Frame(key: FrameKey, spot: Spot)

  datatype GeoEvent =
    | RouteRegistered(from: HubId, to: HubId, geometry: Geometry)
    | TrailerDeparted(trailer: TrailerId, trip: TripId, from: HubId, to: HubId)
    | TrailerArrivedAtHub(trailer: TrailerId, trip: TripId, hub: HubId)
    | TruckRested(trailer: TrailerId, trip: TripId, minutes: int)
    | TruckRefueled(trailer: TrailerId, trip: TripId, minutes: int)
    | Elsewhere

  datatype Stored = Stored(globalSeq: nat, at: int, event: GeoEvent)

  datatype Leg = Leg(key: LegKey, departAt: int)
  datatype GeoState = GeoState(routes: map<LegKey, Geometry>, inflight: map<TripId, Leg>)

  // ----- The reducer ------------------------------------------------------------------------

  function GeometryOf(state: GeoState, key: LegKey): Geometry {
    if key in state.routes then state.routes[key] else []
  }

  function Endpoint(key: FrameKey, geometry: Geometry, at: nat): Option<Frame>
    requires geometry != [] ==> at < |geometry|
  {
    if geometry == [] then None else Some(Frame(key, Spot(geometry[at], None)))
  }

  function StopFrame(half: HalfWay, state: GeoState, key: FrameKey, minutes: int): Option<Frame> {
    if key.trip !in state.inflight then None
    else
      var leg := state.inflight[key.trip];
      var geometry := GeometryOf(state, leg.key);
      if geometry == [] then None
      else if key.t > leg.departAt then Some(Frame(key, Spot(half(geometry), Some(minutes))))
      else Some(Frame(key, Spot(geometry[0], Some(minutes))))
  }

  /** The index after an event; both the reducer and the tables are kept this way. */
  function Indexed(state: GeoState, s: Stored): GeoState {
    match s.event
    case RouteRegistered(from, to, geometry) => state.(routes := state.routes[(from, to) := geometry])
    case TrailerDeparted(_, trip, from, to) => state.(inflight := state.inflight[trip := Leg((from, to), s.at)])
    case TrailerArrivedAtHub(_, trip, _) => state.(inflight := state.inflight - {trip})
    case _ => state
  }

  /** The keyframe an event implies, in the state found. */
  function Implied(half: HalfWay, state: GeoState, s: Stored): Option<Frame> {
    match s.event
    case TrailerDeparted(trailer, trip, from, to) =>
      Endpoint(FrameKey(trailer, trip, Departing, s.at), GeometryOf(state, (from, to)), 0)
    case TrailerArrivedAtHub(trailer, trip, _) =>
      var geometry := if trip in state.inflight then GeometryOf(state, state.inflight[trip].key) else [];
      Endpoint(FrameKey(trailer, trip, Arriving, s.at), geometry, if geometry == [] then 0 else |geometry| - 1)
    case TruckRested(trailer, trip, minutes) => StopFrame(half, state, FrameKey(trailer, trip, Resting, s.at), minutes)
    case TruckRefueled(trailer, trip, minutes) => StopFrame(half, state, FrameKey(trailer, trip, Refueling, s.at), minutes)
    case _ => None
  }

  function Reduce(half: HalfWay, state: GeoState, s: Stored): (GeoState, Option<Frame>) {
    (Indexed(state, s), Implied(half, state, s))
  }

  // ----- The tables -------------------------------------------------------------------------

  datatype Tables = Tables(index: GeoState, keyframes: map<FrameKey, Spot>, checkpoint: nat)

  const TRUNCATED := Tables(GeoState(map[], map[]), map[], 0)

  function Put(keyframes: map<FrameKey, Spot>, frame: Option<Frame>): map<FrameKey, Spot> {
    if frame.Some? then keyframes[frame.value.key := frame.value.spot] else keyframes
  }

  /** The tables when the first `steps` of an event's three steps have been taken: index, keyframe, checkpoint. */
  function FoldPart(half: HalfWay, t: Tables, s: Stored, steps: nat): Tables {
    var (index, frame) := Reduce(half, t.index, s);
    if steps == 0 then t
    else if steps == 1 then t.(index := index)
    else if steps == 2 then t.(index := index, keyframes := Put(t.keyframes, frame))
    else Tables(index, Put(t.keyframes, frame), s.globalSeq)
  }

  function Fold(half: HalfWay, t: Tables, s: Stored): Tables {
    FoldPart(half, t, s, 3)
  }

  function FoldAll(half: HalfWay, t: Tables, events: seq<Stored>): Tables
    decreases |events|
  {
    if events == [] then t else FoldAll(half, Fold(half, t, events[0]), events[1..])
  }

  /** What a rebuild leaves: empty tables and the whole log. */
  function Rebuilt(half: HalfWay, log: seq<Stored>): Tables {
    FoldAll(half, TRUNCATED, log)
  }

  /** The log strictly after a position. */
  function Unread(log: seq<Stored>, from: nat): seq<Stored> {
    if log == [] then []
    else if log[0].globalSeq > from then [log[0]] + Unread(log[1..], from)
    else Unread(log[1..], from)
  }

  /** A pass over a batch that dies after so many steps, or ends. */
  function Pass(half: HalfWay, t: Tables, events: seq<Stored>, steps: nat): Tables
    decreases |events|
  {
    if events == [] then t
    else if steps < 3 then FoldPart(half, t, events[0], steps)
    else Pass(half, Fold(half, t, events[0]), events[1..], steps - 3)
  }

  // ----- The runner -------------------------------------------------------------------------

  class GeoTracker {
    const half: HalfWay
    var routes: map<LegKey, Geometry>
    var inflight: map<TripId, Leg>
    var keyframes: map<FrameKey, Spot>
    var checkpoint: nat

    constructor (half: HalfWay)
      ensures this.half == half && Contents() == TRUNCATED
    {
      this.half := half;
      routes, inflight, keyframes, checkpoint := map[], map[], map[], 0;
    }

    ghost function Contents(): Tables
      reads this
    {
      Tables(GeoState(routes, inflight), keyframes, checkpoint)
    }

    /** The table writes that keep the index: a route, a departed trip, an arrived one. */
    method PersistIndex(s: Stored)
      modifies `routes, `inflight
      ensures GeoState(routes, inflight) == Indexed(old(GeoState(routes, inflight)), s)
    {
      match s.event
      case RouteRegistered(from, to, geometry) => routes := routes[(from, to) := geometry];
      case TrailerDeparted(_, trip, from, to) => inflight := inflight[trip := Leg((from, to), s.at)];
      case TrailerArrivedAtHub(_, trip, _) => inflight := inflight - {trip};
      case _ =>
    }

    /**
     * One pass: the state is loaded once and then carried in memory, the tables are written event
     * by event, and the process dies once `steps` steps have been taken.
     */
    method RunGeoTrack(log: seq<Stored>, steps: nat) returns (applied: nat)
      modifies this
      ensures Contents() == Pass(half, old(Contents()), Unread(log, old(checkpoint)), steps)
      ensures var events := Unread(log, old(checkpoint));
        applied == if 3 * |events| <= steps then |events| else steps / 3
    {
      var events := Unread(log, checkpoint);
      var state := GeoState(routes, inflight);
      var left := steps;
      applied := 0;
      while applied < |events|
        invariant applied <= |events| && left == steps - 3 * applied
        invariant state == GeoState(routes, inflight)
        invariant Pass(half, old(Contents()), events, steps) == Pass(half, Contents(), events[applied..], left)
      {
        var stored := events[applied];
        assert events[applied..][0] == stored && events[applied..][1..] == events[applied + 1..];
        if left == 0 { return; }
        PersistIndex(stored);
        if left == 1 { return; }
        var (next, frame) := Reduce(half, state, stored);
        state := next;
        keyframes := Put(keyframes, frame);
        if left == 2 { return; }
        checkpoint := stored.globalSeq;
        applied, left := applied + 1, left - 3;
      }
    }

    /** Truncate, reset the checkpoint, replay. */
    method Rebuild(log: seq<Stored>)
      requires forall s :: s in log ==> s.globalSeq > 0
      modifies this
      ensures Contents() == Rebuilt(half, log)
    {
      routes, inflight, keyframes, checkpoint := map[], map[], map[], 0;
      var applied := RunGeoTrack(log, 3 * |log|);
      UnreadAll(log, 0);
      PassEnds(half, TRUNCATED, log, 3 * |log|);
    }
  }

  lemma {:induction false} UnreadAll(log: seq<Stored>, from: nat)
    requires forall s :: s in log ==> s.globalSeq > from
    ensures Unread(log, from) == log
  {
    if log != [] {
      UnreadAll(log[1..], from);
      assert log == [log[0]] + log[1..];
    }
  }

  /** A pass with enough steps folds its whole batch. */
  lemma {:induction false} PassEnds(half: HalfWay, t: Tables, events: seq<Stored>, steps: nat)
    requires steps >= 3 * |events|
    ensures Pass(half, t, events, steps) == FoldAll(half, t, events)
    decreases |events|
  {
    hide Fold, FoldPart;
    if events != [] { PassEnds(half, Fold(half, t, events[0]), events[1..], steps - 3); }
  }
}
