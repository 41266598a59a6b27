/**
 * Where the map shows a trailer, read from the event log alone: at the first point of the route it departs
 * on, at the last point of the route it departed on once it arrives, half way or at the origin when it stops.
 */
module GeoFrames {
  import opened GeoTrack
  import opened GeoTrackLaws

  // ----- What the log says ---------------------------------------------------------------------

  /** The route of a leg as last registered. */
  function RouteIn(log: seq<Stored>, key: LegKey): Geometry {
    if log == [] then []
    else
      var e := log[|log| - 1].event;
      if e.RouteRegistered? && (e.from, e.to) == key then e.geometry else RouteIn(log[..|log| - 1], key)
  }

  /** The leg a trip is on: that of its last departure, unless it has arrived since. */
  function LegIn(log: seq<Stored>, trip: TripId): Option<Leg> {
    if log == [] then None
    else
      var s := log[|log| - 1];
      if s.event.TrailerDeparted? && s.event.trip == trip then Some(Leg((s.event.from, s.event.to), s.at))
      else if s.event.TrailerArrivedAtHub? && s.event.trip == trip then None
      else LegIn(log[..|log| - 1], trip)
  }

  function At(key: FrameKey, point: LonLat, minutes: Option<int>): Option<Frame> { Some(Frame(key, Spot(point, minutes))) }

  function Stopped(half: HalfWay, log: seq<Stored>, key: FrameKey, minutes: int): Option<Frame> {
    var leg := LegIn(log, key.trip);
    var route := if leg.Some? then RouteIn(log, leg.value.key) else [];
    if route == [] then None else At(key, if key.t > leg.value.departAt then half(route) else route[0], Some(minutes))
  }

  /** The keyframe an event calls for, given the log before it. */
  function FrameFor(half: HalfWay, log: seq<Stored>, s: Stored): Option<Frame> {
    match s.event
    case TrailerDeparted(trailer, trip, from, to) =>
      var route := RouteIn(log, (from, to));
      if route == [] then None else At(FrameKey(trailer, trip, Departing, s.at), route[0], None)
    case TrailerArrivedAtHub(trailer, trip, _) =>
      var leg := LegIn(log, trip);
      var route := if leg.Some? then RouteIn(log, leg.value.key) else [];
      if route == [] then None else At(FrameKey(trailer, trip, Arriving, s.at), route[|route| - 1], None)
    case TruckRested(trailer, trip, minutes) => Stopped(half, log, FrameKey(trailer, trip, Resting, s.at), minutes)
    case TruckRefueled(trailer, trip, minutes) => Stopped(half, log, FrameKey(trailer, trip, Refueling, s.at), minutes)
    case _ => None
  }

  /** The keyframe of a key: the last one an event called for. */
  function SpotIn(half: HalfWay, log: seq<Stored>, key: FrameKey): Option<Spot> {
    if log == [] then None
    else
      var frame := FrameFor(half, log[..|log| - 1], log[|log| - 1]);
      if frame.Some? && frame.value.key == key then Some(frame.value.spot) else SpotIn(half, log[..|log| - 1], key)
  }

  // ----- The fold keeps to it ----------------------------------------------------------------------

  ghost predicate IndexTells(index: GeoState, log: seq<Stored>) {
    && (forall key :: GeometryOf(index, key) == RouteIn(log, key))
    && (forall trip :: LegIn(log, trip) == if trip in index.inflight then Some(index.inflight[trip]) else None)
  }

  lemma IndexedTells(index: GeoState, log: seq<Stored>, s: Stored)
    requires IndexTells(index, log)
    ensures IndexTells(Indexed(index, s), log + [s])
  {
    var longer := log + [s];
    assert longer[..|longer| - 1] == log;
    forall key ensures GeometryOf(Indexed(index, s), key) == RouteIn(longer, key) {
      assert GeometryOf(index, key) == RouteIn(log, key);
    }
    forall trip ensures LegIn(longer, trip) == if trip in Indexed(index, s).inflight then Some(Indexed(index, s).inflight[trip]) else None {
      assert LegIn(log, trip) == if trip in index.inflight then Some(index.inflight[trip]) else None;
    }
  }

  lemma ImpliedTells(half: HalfWay, index: GeoState, log: seq<Stored>, s: Stored)
    requires IndexTells(index, log)
    ensures Implied(half, index, s) == FrameFor(half, log, s)
  {
    match s.event
    case TrailerDeparted(_, _, from, to) => assert GeometryOf(index, (from, to)) == RouteIn(log, (from, to));
    case TrailerArrivedAtHub(_, trip, _) =>
      assert LegIn(log, trip) == if trip in index.inflight then Some(index.inflight[trip]) else None;
    case TruckRested(_, trip, _) =>
      assert LegIn(log, trip) == if trip in index.inflight then Some(index.inflight[trip]) else None;
    case TruckRefueled(_, trip, _) =>
      assert LegIn(log, trip) == if trip in index.inflight then Some(index.inflight[trip]) else None;
    case _ =>
  }

  /**
   * The keyframes of a rebuild are those the log calls for: each event's from the routes and departures
   * logged before it, a later one replacing an earlier one of the same key.
   */
  lemma {:induction false} RebuiltShowsTheLog(half: HalfWay, log: seq<Stored>)
    ensures IndexTells(Rebuilt(half, log).index, log)
    ensures forall key :: Found(Rebuilt(half, log).keyframes, key) == SpotIn(half, log, key)
  {
    if log != [] {
      var front, s := log[..|log| - 1], log[|log| - 1];
      RebuiltShowsTheLog(half, front);
      RebuiltOneMore(half, log, |front|);
      assert log[..|front| + 1] == log == front + [s];
      var before := Rebuilt(half, front);
      hide Rebuilt, Indexed, Implied, FrameFor, IndexTells;
      IndexedTells(before.index, front, s);
      ImpliedTells(half, before.index, front, s);
      forall key ensures Found(Rebuilt(half, log).keyframes, key) == SpotIn(half, log, key) {
        assert Found(before.keyframes, key) == SpotIn(half, front, key);
      }
    }
  }
}
