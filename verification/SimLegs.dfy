/**
 * How long the trailers are under way. A departure puts the trip in the name of a driver, draws how long the
 * leg is to drive, and has the trailer arrive when the driver has legally driven it: every mandatory pause,
 * with its jitter, delays the arrival, and a refuelling stop counts only where it outlasts the pauses. The
 * pauses and the refuelling are the ones announced to the driver and shown on the road.
 */
module SimLegs {
  import opened Hos
  import opened HosLaws
  import opened Generators
  import opened SimTypes
  import opened EventQueues
  import opened Simulation
  import opened SimRuns
  import opened SimFreight
  import opened SimBooks
  import opened SimChunks
  import opened SimJourneys
  import opened SimTimeline

  // ----- What a leg asks for -------------------------------------------------------------------

  /** The pauses of a log, in order. */
  function PausesOf(log: seq<DutySegment>): seq<DutySegment> {
    if log == [] then []
    else (if log[0].kind == Drive then [] else [log[0]]) + PausesOf(log[1..])
  }

  function MinutesOf(log: seq<DutySegment>): int {
    if log == [] then 0 else log[0].minutes + MinutesOf(log[1..])
  }

  /** The word of the jitter stream after `n` draws. */
  function Drawn(env: Env, w: Word, n: nat): Word
    decreases n
  {
    if n == 0 then w else Drawn(env, Next(env, w), n - 1)
  }

  /** The jitter of the `i`-th pause: from nothing to a quarter of an hour. */
  function Jitter(env: Env, w: Word, i: nat): (r: nat)
    ensures r <= 15
  {
    Draw(env, Drawn(env, w, i), 16)
  }

  function Jitters(env: Env, w: Word, n: nat): nat {
    if n == 0 then 0 else Jitters(env, w, n - 1) + Jitter(env, w, n - 1)
  }

  /** How long the leg to `spoke` is to drive, as drawn at its departure. */
  function TransitOf(env: Env, rng: RngStates, spoke: Hub): nat {
    DrawTransit(env, rng.timing, Center, spoke).1
  }

  predicate Refuels(env: Env, w: World, t: TrailerId, spoke: Hub) {
    env.fuelOn && GetOr(w.odometer, t, 0.0) + env.legMiles(Center, spoke) >= env.fuelConfig.refuelThresholdMiles
  }

  function RefuelMinutes(env: Env): int { Round(env.fuelConfig.refuelTimeMinutes) }

  /** A pause as it is shown on the road and as the driver's duty changes. */
  function Shown(env: Env, w: Word, pauses: seq<DutySegment>, i: nat): Pause
    requires i < |pauses|
  {
    Pause(if pauses[i].kind == Break then Break30min else Rest10h, pauses[i].minutes + Jitter(env, w, i))
  }

  function Paused(d: DriverId, pause: DutySegment, clock: HosClock, now: int): SimEvent {
    SimEvent(DriverStream(d), if pause.kind == Break then DriverDutyStateChanged(d, OnBreak, BreakDue, clock)
                              else DriverDutyStateChanged(d, Resting, Reset10h, clock), now)
  }

  // ----- The pauses of a leg -------------------------------------------------------------------------

  lemma {:induction false} DrawnOneMore(env: Env, w: Word, n: nat)
    ensures Drawn(env, w, n + 1) == Next(env, Drawn(env, w, n))
    decreases n
  {
    if n > 0 { DrawnOneMore(env, Next(env, w), n - 1); }
  }

  lemma {:induction false} PausesOfLonger(log: seq<DutySegment>, last: DutySegment)
    ensures PausesOf(log + [last]) == PausesOf(log) + if last.kind == Drive then [] else [last]
  {
    if log == [] {
      assert ([] + [last])[1..] == [];
    } else {
      PausesOfLonger(log[1..], last);
      assert (log + [last])[1..] == log[1..] + [last];
    }
  }

  lemma {:induction false} MinutesOfLonger(log: seq<DutySegment>, last: DutySegment)
    ensures MinutesOf(log + [last]) == MinutesOf(log) + last.minutes
  {
    if log == [] {
      assert ([] + [last])[1..] == [];
    } else {
      MinutesOfLonger(log[1..], last);
      assert (log + [last])[1..] == log[1..] + [last];
    }
  }

  /** The driver is told of each pause, in order, and each takes its minutes and its own jitter. */
  ghost predicate Told(env: Env, w: Word, d: DriverId, pauses: seq<DutySegment>, clock: HosClock, now: int, told: Pauses) {
    && told.word == Drawn(env, w, |pauses|)
    && told.extra == MinutesOf(pauses) + Jitters(env, w, |pauses|)
    && |told.rests| == |told.events| == |pauses|
    && (forall i :: 0 <= i < |pauses| ==> told.rests[i] == Shown(env, w, pauses, i))
    && (forall i :: 0 <= i < |pauses| ==> told.events[i] == Paused(d, pauses[i], clock, now))
  }

  lemma ToldOneMore(env: Env, w: Word, d: DriverId, pauses: seq<DutySegment>, s: DutySegment, clock: HosClock, now: int, told: Pauses)
    requires Told(env, w, d, pauses, clock, now, told) && s.kind != Drive
    ensures var pause, minutes := Shown(env, w, pauses + [s], |pauses|), s.minutes + Draw(env, told.word, 16);
      Told(env, w, d, pauses + [s], clock, now,
           Pauses(Next(env, told.word), told.events + [Paused(d, s, clock, now)], told.extra + minutes, told.rests + [pause]))
  {
    hide Draw, Next, MinutesOf;
    DrawnOneMore(env, w, |pauses|);
    MinutesOfLonger(pauses, s);
    var longer := pauses + [s];
    forall i | 0 <= i < |pauses| ensures Shown(env, w, longer, i) == Shown(env, w, pauses, i) {}
    assert Jitters(env, w, |pauses| + 1) == Jitters(env, w, |pauses|) + Jitter(env, w, |pauses|);
  }

  lemma {:induction false} LegPausesAreTold(env: Env, w: Word, d: DriverId, log: seq<DutySegment>, clock: HosClock, now: int)
    ensures Told(env, w, d, PausesOf(log), clock, now, LegPauses(env, w, d, log, clock, now))
  {
    hide Draw, Next;
    if log != [] {
      var front, s := log[..|log| - 1], log[|log| - 1];
      assert front + [s] == log;
      PausesOfLonger(front, s);
      LegPausesAreTold(env, w, d, front, clock, now);
      var before := LegPauses(env, w, d, front, clock, now);
      if s.kind == Drive {
        assert PausesOf(front) + [] == PausesOf(front);
      } else {
        hide Told;
        ToldOneMore(env, w, d, PausesOf(front), s, clock, now, before);
        ToldShown(env, w, d, PausesOf(front), s, clock, now, before);
      }
    }
  }

  lemma ToldShown(env: Env, w: Word, d: DriverId, pauses: seq<DutySegment>, s: DutySegment, clock: HosClock, now: int, told: Pauses)
    requires Told(env, w, d, pauses, clock, now, told)
    ensures Shown(env, w, pauses + [s], |pauses|)
         == Pause(if s.kind == Break then Break30min else Rest10h, s.minutes + Draw(env, told.word, 16))
  {
  }

  /** All the minutes of a log are driving and pauses. */
  lemma {:induction false} DrivingAndPauses(log: seq<DutySegment>)
    ensures Elapsed(log) == DriveMinutes(log) + MinutesOf(PausesOf(log))
  {
    if log != [] {
      var rest := PausesOf(log[1..]);
      DrivingAndPauses(log[1..]);
      if log[0].kind == Drive { assert [] + rest == rest; } else { assert ([log[0]] + rest)[1..] == rest; }
    }
  }

  // ----- A departure ---------------------------------------------------------------------------------

  /** What is to be known of a departure besides the state it finds. */
  datatype Crew = Crew(driver: DriverId, clock: HosClock, swaps: seq<SimEvent>)

  function Larger(a: int, b: int): int { if a >= b then a else b }

  /** The pauses of the leg as the driver legally drives it. */
  function PausesNeeded(env: Env, rng: RngStates, spoke: Hub, at: int, clock: HosClock): seq<DutySegment>
    requires env.Ok()
  {
    if env.hosOn then PausesOf(DriveLeg(clock, env.hosConfig, TransitOf(env, rng, spoke), at).segments) else []
  }

  function AllShown(env: Env, w: Word, pauses: seq<DutySegment>): seq<Pause> {
    seq(|pauses|, i requires 0 <= i < |pauses| => Shown(env, w, pauses, i))
  }

  function AllPaused(d: DriverId, pauses: seq<DutySegment>, clock: HosClock, at: int): seq<SimEvent> {
    seq(|pauses|, i requires 0 <= i < |pauses| => Paused(d, pauses[i], clock, at))
  }

  function OdometerAfter(env: Env, w: World, t: TrailerId, spoke: Hub): real {
    GetOr(w.odometer, t, 0.0) + env.legMiles(Center, spoke)
  }

  /** Driving, and whichever takes longer, the pauses or the refuelling. */
  function ArrivalTick(env: Env, rng: RngStates, w: World, t: TrailerId, spoke: Hub, at: int, clock: HosClock): int
    requires env.Ok()
  {
    var pauses := PausesNeeded(env, rng, spoke, at, clock);
    at + TransitOf(env, rng, spoke)
    + Larger(MinutesOf(pauses) + Jitters(env, rng.hos, |pauses|), if Refuels(env, w, t, spoke) then RefuelMinutes(env) else 0)
  }

  /** The tasks a departure schedules: the stops half way, if any are to be shown, and the arrival. */
  ghost predicate Schedules(env: Env, rng: RngStates, w: World, t: TrailerId, spoke: Hub, at: int, clock: HosClock, spawned: seq<Timed>)
    requires env.Ok()
  {
    var pauses, trip, refuels := PausesNeeded(env, rng, spoke, at, clock), w.tripCounter + 1, Refuels(env, w, t, spoke);
    var arrive := ArrivalTick(env, rng, w, t, spoke, at, clock);
    spawned == (if env.fuelOn && (pauses != [] || refuels)
                then [Timed(at + TransitOf(env, rng, spoke) / 2,
                            MidLegStops(t, trip, AllShown(env, rng.hos, pauses), refuels, if refuels then OdometerAfter(env, w, t, spoke) else 0.0))]
                else [])
               + [Timed(arrive, SimTask.ArriveTrailer(t, spoke, trip, Manifest(w.pendingBySpoke, spoke), arrive))]
  }

  /** Loaded, announced and sent off. */
  function LeavingEvents(env: Env, w: World, t: TrailerId, spoke: Hub, at: int): seq<SimEvent> {
    var trip, loaded := w.tripCounter + 1, Manifest(w.pendingBySpoke, spoke);
    seq(|loaded|, i requires 0 <= i < |loaded| => SimEvent(PackageStream(loaded[i]), PackageScanned(loaded[i], Center, Load), at))
    + (if env.hosOn then [SimEvent(TrailerStream(t), TrailerPhase(LoadStarted, t, Center, trip), at)] else [])
    + [SimEvent(TrailerStream(t), TrailerDeparted(t, Center, spoke, trip, loaded), at)]
  }

  /** Handed over if need be, put in the driver's name, on duty. */
  function DrivingEvents(crew: Crew, t: TrailerId, trip: TripId, at: int): seq<SimEvent> {
    crew.swaps + [SimEvent(DriverStream(crew.driver), DriverAssignedToTrip(crew.driver, trip, t), at),
                  SimEvent(DriverStream(crew.driver), DriverDutyStateChanged(crew.driver, Driving, TripDispatched, crew.clock), at)]
  }

  /** The portal reads what is loaded as it leaves. */
  function PortalEvents(env: Env, rng: RngStates, t: TrailerId, loaded: seq<PackageId>, at: int): seq<SimEvent> {
    if env.rfidOn && loaded != [] then ReadEvents(t, env.rfidReads(rng.rfid, Portal, t, Center, loaded).1, at) else []
  }

  /** Each pause announced, and the drive after the last one. */
  function PausingEvents(crew: Crew, pauses: seq<DutySegment>, after: HosClock, at: int): seq<SimEvent> {
    AllPaused(crew.driver, pauses, after, at)
    + if pauses != [] then [SimEvent(DriverStream(crew.driver), DriverDutyStateChanged(crew.driver, Driving, RestComplete, after), at)] else []
  }

  ghost predicate Announced(env: Env, rng: RngStates, w: World, t: TrailerId, spoke: Hub, at: int, crew: Crew, events: seq<SimEvent>)
    requires env.Ok()
  {
    var trip, loaded := w.tripCounter + 1, Manifest(w.pendingBySpoke, spoke);
    if env.hosOn then
      var leg := DriveLeg(crew.clock, env.hosConfig, TransitOf(env, rng, spoke), at);
      events == LeavingEvents(env, w, t, spoke, at) + DrivingEvents(crew, t, trip, at) + PortalEvents(env, rng, t, loaded, at)
                + PausingEvents(crew, PausesOf(leg.segments), leg.clock, at)
    else
      events == LeavingEvents(env, w, t, spoke, at) + PortalEvents(env, rng, t, loaded, at)
  }

  /** The driver's clock has the leg on it, and the driver is booked until the trailer is there. */
  ghost predicate Booked(env: Env, rng: RngStates, w: World, t: TrailerId, spoke: Hub, at: int, crew: Crew, after: World)
    requires env.Ok()
  {
    && DriverOf(after, t) == crew.driver
    && crew.driver in after.clockByDriver && crew.driver in after.availableAt
    && after.clockByDriver[crew.driver] == DriveLeg(crew.clock, env.hosConfig, TransitOf(env, rng, spoke), at).clock
    && after.availableAt[crew.driver] == ArrivalTick(env, rng, w, t, spoke, at, crew.clock)
  }

  /** Everything a departure does. */
  ghost predicate Departs(env: Env, rng: RngStates, w: World, t: TrailerId, spoke: Hub, at: int, crew: Crew, r: Effect)
    requires env.Ok()
  {
    && Schedules(env, rng, w, t, spoke, at, crew.clock, r.spawned)
    && Announced(env, rng, w, t, spoke, at, crew, r.events)
    && (env.hosOn ==> Booked(env, rng, w, t, spoke, at, crew, r.world))
    && r.world.odometer == (if !env.fuelOn then w.odometer
                            else w.odometer[t := if Refuels(env, w, t, spoke) then 0.0 else OdometerAfter(env, w, t, spoke)])
    && r.rng.hos == Drawn(env, rng.hos, |PausesNeeded(env, rng, spoke, at, crew.clock)|)
  }

  // ----- The stages of a departure -----------------------------------------------------------------

  lemma RollIs(env: Env, rng: RngStates, w: World, t: TrailerId, spoke: Hub, at: int)
    ensures var (r, transit) := Roll(env, Effect(rng, w, [], []), t, spoke, at);
      && transit == TransitOf(env, rng, spoke)
      && r.rng == rng.(timing := r.rng.timing) && r.spawned == []
      && r.world == w.(tripCounter := w.tripCounter + 1, pendingBySpoke := w.pendingBySpoke[spoke := []])
      && r.events == LeavingEvents(env, w, t, spoke, at)
  {
    var (r, transit) := Roll(env, Effect(rng, w, [], []), t, spoke, at);
    var loaded := Manifest(w.pendingBySpoke, spoke);
    assert LoadScans(loaded, Center, at)
        == seq(|loaded|, i requires 0 <= i < |loaded| => SimEvent(PackageStream(loaded[i]), PackageScanned(loaded[i], Center, Load), at));
    assert [] + LoadScans(loaded, Center, at) == LoadScans(loaded, Center, at);
  }

  lemma DispatchIs(env: Env, e: Effect, t: TrailerId, trip: TripId, transit: int, at: int) returns (crew: Crew)
    ensures var r := Dispatch(env, e, t, trip, transit, at);
      && r.rng == e.rng && r.spawned == e.spawned && r.world.odometer == e.world.odometer
      && r.events == e.events + (if env.hosOn then DrivingEvents(crew, t, trip, at) else [])
      && (env.hosOn ==>
            var choice := SelectDriver(env, e.world, t, trip, transit, at);
            && r.world == choice.world && crew == Crew(choice.driver, ClockOf(choice.world, choice.driver), choice.events)
            && DriverOf(r.world, t) == crew.driver && ClockOf(r.world, crew.driver) == crew.clock)
  {
    hide LegalMinutes, FirstFree, ClockOf, RemoveFirst;
    var choice := SelectDriver(env, e.world, t, trip, transit, at);
    crew := Crew(choice.driver, ClockOf(choice.world, choice.driver), choice.events);
    assert e.events + [] == e.events;
  }

  lemma ReadIs(env: Env, e: Effect, t: TrailerId, loaded: seq<PackageId>, at: int)
    ensures var r := RfidEffect(env, e, Portal, t, Center, loaded, at);
      && r.rng == e.rng.(rfid := r.rng.rfid) && r.spawned == e.spawned && r.world == e.world
      && r.events == e.events + PortalEvents(env, e.rng, t, loaded, at)
  {
    assert e.events + [] == e.events;
  }

  lemma {:induction false} MinutesArePositive(log: seq<DutySegment>)
    requires forall k :: 0 <= k < |log| ==> log[k].minutes > 0
    ensures MinutesOf(log) >= 0 && (log != [] ==> MinutesOf(log) > 0)
    ensures forall k :: 0 <= k < |PausesOf(log)| ==> PausesOf(log)[k].minutes > 0
  {
    if log != [] { MinutesArePositive(log[1..]); }
  }

  /** With hours of service on, the leg is driven, told and paused as the driver's clock demands. */
  lemma DriveIs(env: Env, e: Effect, t: TrailerId, transit: nat, at: int)
    requires env.Ok() && env.hosOn
    ensures var a, d := DriveOut(env, e, t, transit, at), DriverOf(e.world, t);
      var leg := DriveLeg(ClockOf(e.world, d), env.hosConfig, transit, at);
      var pauses := PausesOf(leg.segments);
      && a.extra == MinutesOf(pauses) + Jitters(env, e.rng.hos, |pauses|)
      && a.rests == AllShown(env, e.rng.hos, pauses)
      && a.effect.rng == e.rng.(hos := Drawn(env, e.rng.hos, |pauses|))
      && a.effect.spawned == e.spawned
      && a.effect.world == e.world.(clockByDriver := e.world.clockByDriver[d := leg.clock])
      && a.effect.events == e.events + PausingEvents(Crew(d, ClockOf(e.world, d), []), pauses, leg.clock, at)
  {
    var d := DriverOf(e.world, t);
    var clock := ClockOf(e.world, d);
    var leg := DriveLeg(clock, env.hosConfig, transit, at);
    var pauses := PausesOf(leg.segments);
    LegTotals(clock, env.hosConfig, transit, at);
    MinutesArePositive(leg.segments);
    MinutesArePositive(pauses);
    LegPausesAreTold(env, e.rng.hos, d, leg.segments, leg.clock, at);
    var told := LegPauses(env, e.rng.hos, d, leg.segments, leg.clock, at);
    hide DriveLeg, LegPauses, ClockOf, DriverOf, MinutesOf, Shown, Paused;
    assert told.rests == AllShown(env, e.rng.hos, pauses);
    assert told.events == AllPaused(d, pauses, leg.clock, at);
    assert told.extra > 0 <==> pauses != [] by { if pauses == [] { NoMinutes(); } }
    hide Told;
    assert DriveOut(env, e, t, transit, at) == AccrueLeg(env, e, d, transit, at);
    var resumed := if pauses != [] then [DutyEvent(d, Driving, RestComplete, leg.clock, at)] else [];
    assert e.events + told.events + resumed == e.events + (told.events + resumed);
  }

  lemma NoMinutes()
    ensures MinutesOf([]) == 0
  {
  }

  lemma UnderwayIs(env: Env, a: Accrual, t: TrailerId, spoke: Hub, trip: TripId, loaded: seq<PackageId>, transit: nat, at: int)
    requires a.effect.spawned == []
    ensures var r, w := Underway(env, a, t, spoke, trip, loaded, transit, at, at), a.effect.world;
      var refuels := Refuels(env, w, t, spoke);
      var arrive := at + transit + Larger(a.extra, if refuels then RefuelMinutes(env) else 0);
      && r.events == a.effect.events && r.rng == a.effect.rng
      && r.spawned == (if env.fuelOn && (a.rests != [] || refuels)
                       then [Timed(at + transit / 2, MidLegStops(t, trip, a.rests, refuels, if refuels then OdometerAfter(env, w, t, spoke) else 0.0))]
                       else [])
                      + [Timed(arrive, SimTask.ArriveTrailer(t, spoke, trip, loaded, arrive))]
      && r.world == w.(odometer := r.world.odometer, availableAt := r.world.availableAt)
      && r.world.odometer == (if !env.fuelOn then w.odometer else w.odometer[t := if refuels then 0.0 else OdometerAfter(env, w, t, spoke)])
      && (env.hosOn ==> r.world.availableAt == w.availableAt[DriverOf(w, t) := arrive])
  {
    hide Round;
  }

  /** The freight is aboard, the trip has its number. */
  function Loaded(w: World, spoke: Hub): World {
    w.(tripCounter := w.tripCounter + 1, pendingBySpoke := w.pendingBySpoke[spoke := []])
  }

  lemma SameOdometer(env: Env, w: World, x: World, t: TrailerId, spoke: Hub)
    requires x.odometer == w.odometer
    ensures Refuels(env, x, t, spoke) == Refuels(env, w, t, spoke) && OdometerAfter(env, x, t, spoke) == OdometerAfter(env, w, t, spoke)
  {
  }

  lemma NothingNeeded(env: Env, rng: RngStates, spoke: Hub, at: int, clock: HosClock)
    requires env.Ok() && !env.hosOn
    ensures PausesNeeded(env, rng, spoke, at, clock) == [] && AllShown(env, rng.hos, []) == []
    ensures MinutesOf([]) == 0 && Drawn(env, rng.hos, 0) == rng.hos && Jitters(env, rng.hos, 0) == 0
  {
  }

  lemma DepartUnfolds(env: Env, e: Effect, t: TrailerId, spoke: Hub, at: int)
    requires env.Ok()
    ensures var (rolled, transit) := Roll(env, e, t, spoke, at);
      var trip, loaded := e.world.tripCounter + 1, Manifest(e.world.pendingBySpoke, spoke);
      var read := RfidEffect(env, Dispatch(env, rolled, t, trip, transit, at), Portal, t, Center, loaded, at);
      Depart(env, e, t, spoke, at, at) == Underway(env, DriveOut(env, read, t, transit, at), t, spoke, trip, loaded, transit, at, at)
  {
    hide Roll, Dispatch, RfidEffect, DriveOut, Underway, Manifest;
  }

  lemma OffDuty(env: Env, e: Effect, t: TrailerId, trip: TripId, transit: nat, at: int)
    requires env.Ok() && !env.hosOn
    ensures Dispatch(env, e, t, trip, transit, at) == e && DriveOut(env, e, t, transit, at) == Accrual(e, 0, [])
  {
  }

  /** With hours of service off nobody is asked and nothing is added. */
  lemma DepartureOffDuty(env: Env, rng: RngStates, w: World, t: TrailerId, spoke: Hub, at: int, crew: Crew)
    requires env.Ok() && !env.hosOn
    ensures Departs(env, rng, w, t, spoke, at, crew, Depart(env, Effect(rng, w, [], []), t, spoke, at, at))
  {
    hide *;
    var e := Effect(rng, w, [], []);
    var trip, loaded := w.tripCounter + 1, Manifest(w.pendingBySpoke, spoke);
    RollIs(env, rng, w, t, spoke, at);
    var (rolled, transit) := Roll(env, e, t, spoke, at);
    OffDuty(env, rolled, t, trip, transit, at);
    ReadIs(env, rolled, t, loaded, at);
    var read := RfidEffect(env, rolled, Portal, t, Center, loaded, at);
    OffDuty(env, read, t, trip, transit, at);
    UnderwayIs(env, Accrual(read, 0, []), t, spoke, trip, loaded, transit, at);
    SameOdometer(env, w, read.world, t, spoke);
    PortalSame(env, rng, rolled.rng, t, loaded, at);
    DepartUnfolds(env, e, t, spoke, at);
    DepartsOffDuty(env, rng, w, t, spoke, at, crew, Underway(env, Accrual(read, 0, []), t, spoke, trip, loaded, transit, at, at));
  }

  lemma DepartsOffDuty(env: Env, rng: RngStates, w: World, t: TrailerId, spoke: Hub, at: int, crew: Crew, r: Effect)
    requires env.Ok() && !env.hosOn
    requires var refuels, transit := Refuels(env, w, t, spoke), TransitOf(env, rng, spoke);
      var arrive := at + transit + Larger(0, if refuels then RefuelMinutes(env) else 0);
      r.spawned == (if env.fuelOn && refuels
                    then [Timed(at + transit / 2, MidLegStops(t, w.tripCounter + 1, [], refuels, if refuels then OdometerAfter(env, w, t, spoke) else 0.0))]
                    else [])
                   + [Timed(arrive, SimTask.ArriveTrailer(t, spoke, w.tripCounter + 1, Manifest(w.pendingBySpoke, spoke), arrive))]
    requires r.events == LeavingEvents(env, w, t, spoke, at) + PortalEvents(env, rng, t, Manifest(w.pendingBySpoke, spoke), at)
    requires r.rng.hos == rng.hos
    requires r.world.odometer == (if !env.fuelOn then w.odometer
                                  else w.odometer[t := if Refuels(env, w, t, spoke) then 0.0 else OdometerAfter(env, w, t, spoke)])
    ensures Departs(env, rng, w, t, spoke, at, crew, r)
  {
    NothingNeeded(env, rng, spoke, at, crew.clock);
    hide Refuels, RefuelMinutes, OdometerAfter, TransitOf, LeavingEvents, PortalEvents, AllShown, PausesNeeded, MinutesOf, Jitters, Drawn, Larger, Manifest;
  }

  /** What a launched departure with hours of service on carries on: the leg driven, told and announced. */
  ghost predicate Launched(env: Env, rng: RngStates, w: World, t: TrailerId, spoke: Hub, at: int, crew: Crew, a: Accrual)
    requires env.Ok()
  {
    var leg := DriveLeg(crew.clock, env.hosConfig, TransitOf(env, rng, spoke), at);
    var pauses := PausesOf(leg.segments);
    && a.extra == MinutesOf(pauses) + Jitters(env, rng.hos, |pauses|) && a.rests == AllShown(env, rng.hos, pauses)
    && a.effect.spawned == [] && a.effect.rng.hos == Drawn(env, rng.hos, |pauses|)
    && Announced(env, rng, w, t, spoke, at, crew, a.effect.events)
    && a.effect.world.odometer == w.odometer && DriverOf(a.effect.world, t) == crew.driver
    && crew.driver in a.effect.world.clockByDriver && a.effect.world.clockByDriver[crew.driver] == leg.clock
  }

  lemma DrivenIsLaunched(env: Env, rng: RngStates, w: World, t: TrailerId, spoke: Hub, at: int, crew: Crew, rolled: Effect,
                         dispatched: Effect, read: Effect)
    requires env.Ok() && env.hosOn
    requires rolled.events == LeavingEvents(env, w, t, spoke, at)
    requires dispatched.events == rolled.events + DrivingEvents(crew, t, w.tripCounter + 1, at)
    requires read.events == dispatched.events + PortalEvents(env, rng, t, Manifest(w.pendingBySpoke, spoke), at)
    requires read.rng.hos == rng.hos && read.spawned == [] && read.world.odometer == w.odometer
    requires DriverOf(read.world, t) == crew.driver && ClockOf(read.world, crew.driver) == crew.clock
    ensures Launched(env, rng, w, t, spoke, at, crew, DriveOut(env, read, t, TransitOf(env, rng, spoke), at))
  {
    assert env.hosConfig.Positive();
    hide *;
    var transit := TransitOf(env, rng, spoke);
    var a := DriveOut(env, read, t, transit, at);
    var leg := DriveLeg(crew.clock, env.hosConfig, transit, at);
    DriveIs(env, read, t, transit, at);
    PausingIgnoresSwaps(crew, t, PausesOf(leg.segments), leg.clock, at);
    SameDriver(read.world, a.effect.world, t);
    AnnouncedOnDuty(env, rng, w, t, spoke, at, crew, rolled.events, dispatched.events, read.events, a.effect.events);
    LaunchedWhen(env, rng, w, t, spoke, at, crew, a);
  }

  lemma LaunchedWhen(env: Env, rng: RngStates, w: World, t: TrailerId, spoke: Hub, at: int, crew: Crew, a: Accrual)
    requires env.Ok()
    requires var leg := DriveLeg(crew.clock, env.hosConfig, TransitOf(env, rng, spoke), at);
      var pauses := PausesOf(leg.segments);
      && a.extra == MinutesOf(pauses) + Jitters(env, rng.hos, |pauses|) && a.rests == AllShown(env, rng.hos, pauses)
      && a.effect.rng.hos == Drawn(env, rng.hos, |pauses|)
      && crew.driver in a.effect.world.clockByDriver && a.effect.world.clockByDriver[crew.driver] == leg.clock
    requires a.effect.spawned == [] && Announced(env, rng, w, t, spoke, at, crew, a.effect.events)
    requires a.effect.world.odometer == w.odometer && DriverOf(a.effect.world, t) == crew.driver
    ensures Launched(env, rng, w, t, spoke, at, crew, a)
  {
    hide Announced, DriveLeg, PausesOf, MinutesOf, Jitters, AllShown, Drawn, DriverOf, TransitOf;
  }

  lemma SameDriver(w: World, x: World, t: TrailerId)
    requires x.driverByTrailer == w.driverByTrailer
    ensures DriverOf(x, t) == DriverOf(w, t)
  {
  }

  /** From the launch to the scheduled arrival. */
  lemma LaunchedDeparts(env: Env, rng: RngStates, w: World, t: TrailerId, spoke: Hub, at: int, crew: Crew, a: Accrual)
    requires env.Ok() && env.hosOn && Launched(env, rng, w, t, spoke, at, crew, a)
    ensures Departs(env, rng, w, t, spoke, at, crew,
                    Underway(env, a, t, spoke, w.tripCounter + 1, Manifest(w.pendingBySpoke, spoke), TransitOf(env, rng, spoke), at, at))
  {
    hide Announced, DriveLeg, PausesOf, MinutesOf, Jitters, AllShown, Drawn, DriverOf, TransitOf, Underway, Departs, Schedules, Manifest,
         Refuels, RefuelMinutes, OdometerAfter, Larger;
    var transit, loaded := TransitOf(env, rng, spoke), Manifest(w.pendingBySpoke, spoke);
    var r := Underway(env, a, t, spoke, w.tripCounter + 1, loaded, transit, at, at);
    UnderwayIs(env, a, t, spoke, w.tripCounter + 1, loaded, transit, at);
    SameOdometer(env, w, a.effect.world, t, spoke);
    SameDriver(a.effect.world, r.world, t);
    ScheduledOnDuty(env, rng, w, t, spoke, at, crew.clock, a, r.spawned);
    DepartsWhen(env, rng, w, t, spoke, at, crew, a, r);
  }

  /** With hours of service on, the crew is the one the selection leaves on the trailer. */
  lemma DepartureOnDuty(env: Env, rng: RngStates, w: World, t: TrailerId, spoke: Hub, at: int) returns (crew: Crew)
    requires env.Ok() && env.hosOn
    ensures Departs(env, rng, w, t, spoke, at, crew, Depart(env, Effect(rng, w, [], []), t, spoke, at, at))
    ensures var choice := SelectDriver(env, Loaded(w, spoke), t, w.tripCounter + 1, TransitOf(env, rng, spoke), at);
      crew == Crew(choice.driver, ClockOf(choice.world, choice.driver), choice.events)
  {
    hide *;
    var e := Effect(rng, w, [], []);
    var trip, loaded := w.tripCounter + 1, Manifest(w.pendingBySpoke, spoke);
    RollIs(env, rng, w, t, spoke, at);
    var (rolled, transit) := Roll(env, e, t, spoke, at);
    LoadedIs(w, spoke, rolled.world);
    crew := DispatchIs(env, rolled, t, trip, transit, at);
    var dispatched := Dispatch(env, rolled, t, trip, transit, at);
    ReadIs(env, dispatched, t, loaded, at);
    var read := RfidEffect(env, dispatched, Portal, t, Center, loaded, at);
    PortalSame(env, rng, dispatched.rng, t, loaded, at);
    DrivenIsLaunched(env, rng, w, t, spoke, at, crew, rolled, dispatched, read);
    LaunchedDeparts(env, rng, w, t, spoke, at, crew, DriveOut(env, read, t, transit, at));
    DepartUnfolds(env, e, t, spoke, at);
  }

  lemma LoadedIs(w: World, spoke: Hub, x: World)
    requires x == w.(tripCounter := w.tripCounter + 1, pendingBySpoke := w.pendingBySpoke[spoke := []])
    ensures x == Loaded(w, spoke)
  {
  }

  lemma PortalSame(env: Env, rng: RngStates, other: RngStates, t: TrailerId, loaded: seq<PackageId>, at: int)
    requires rng.rfid == other.rfid
    ensures PortalEvents(env, rng, t, loaded, at) == PortalEvents(env, other, t, loaded, at)
  {
  }

  lemma ScheduledOnDuty(env: Env, rng: RngStates, w: World, t: TrailerId, spoke: Hub, at: int, clock: HosClock, a: Accrual, spawned: seq<Timed>)
    requires env.Ok() && env.hosOn
    requires var pauses := PausesOf(DriveLeg(clock, env.hosConfig, TransitOf(env, rng, spoke), at).segments);
      a.extra == MinutesOf(pauses) + Jitters(env, rng.hos, |pauses|) && a.rests == AllShown(env, rng.hos, pauses)
    requires var refuels, transit := Refuels(env, w, t, spoke), TransitOf(env, rng, spoke);
      var arrive := at + transit + Larger(a.extra, if refuels then RefuelMinutes(env) else 0);
      spawned == (if env.fuelOn && (a.rests != [] || refuels)
                  then [Timed(at + transit / 2, MidLegStops(t, w.tripCounter + 1, a.rests, refuels, if refuels then OdometerAfter(env, w, t, spoke) else 0.0))]
                  else [])
                 + [Timed(arrive, SimTask.ArriveTrailer(t, spoke, w.tripCounter + 1, Manifest(w.pendingBySpoke, spoke), arrive))]
    ensures Schedules(env, rng, w, t, spoke, at, clock, spawned)
  {
    hide Refuels, RefuelMinutes, OdometerAfter, TransitOf, PausesOf, DriveLeg, MinutesOf, Jitters, Shown, Larger;
  }

  lemma AnnouncedOnDuty(env: Env, rng: RngStates, w: World, t: TrailerId, spoke: Hub, at: int, crew: Crew,
                        rolled: seq<SimEvent>, dispatched: seq<SimEvent>, read: seq<SimEvent>, all: seq<SimEvent>)
    requires env.Ok() && env.hosOn
    requires var leg := DriveLeg(crew.clock, env.hosConfig, TransitOf(env, rng, spoke), at);
      && rolled == LeavingEvents(env, w, t, spoke, at)
      && dispatched == rolled + DrivingEvents(crew, t, w.tripCounter + 1, at)
      && read == dispatched + PortalEvents(env, rng, t, Manifest(w.pendingBySpoke, spoke), at)
      && all == read + PausingEvents(crew, PausesOf(leg.segments), leg.clock, at)
    ensures Announced(env, rng, w, t, spoke, at, crew, all)
  {
    hide LeavingEvents, DrivingEvents, PortalEvents, PausingEvents, DriveLeg, TransitOf, PausesOf, Manifest;
  }

  lemma DepartsWhen(env: Env, rng: RngStates, w: World, t: TrailerId, spoke: Hub, at: int, crew: Crew, a: Accrual, r: Effect)
    requires env.Ok() && env.hosOn
    requires Schedules(env, rng, w, t, spoke, at, crew.clock, r.spawned) && Announced(env, rng, w, t, spoke, at, crew, r.events)
    requires var leg := DriveLeg(crew.clock, env.hosConfig, TransitOf(env, rng, spoke), at);
      var arrive := at + TransitOf(env, rng, spoke) + Larger(a.extra, if Refuels(env, w, t, spoke) then RefuelMinutes(env) else 0);
      && a.extra == MinutesOf(PausesOf(leg.segments)) + Jitters(env, rng.hos, |PausesOf(leg.segments)|)
      && DriverOf(r.world, t) == crew.driver
      && crew.driver in r.world.clockByDriver && r.world.clockByDriver[crew.driver] == leg.clock
      && crew.driver in r.world.availableAt && r.world.availableAt[crew.driver] == arrive
      && r.rng.hos == Drawn(env, rng.hos, |PausesOf(leg.segments)|)
    requires r.world.odometer == (if !env.fuelOn then w.odometer
                                  else w.odometer[t := if Refuels(env, w, t, spoke) then 0.0 else OdometerAfter(env, w, t, spoke)])
    ensures Departs(env, rng, w, t, spoke, at, crew, r)
  {
    hide Refuels, RefuelMinutes, OdometerAfter, TransitOf, PausesOf, DriveLeg, MinutesOf, Jitters, Drawn, DriverOf, Schedules, Announced, Larger;
  }

  lemma PausingIgnoresSwaps(crew: Crew, t: TrailerId, pauses: seq<DutySegment>, after: HosClock, at: int)
    ensures PausingEvents(Crew(crew.driver, crew.clock, []), pauses, after, at) == PausingEvents(crew, pauses, after, at)
  {
  }
}
