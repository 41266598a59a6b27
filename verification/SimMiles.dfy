/**
 * What the odometers can influence: nothing but the end of a departure, where they decide whether the
 * trip refuels. Every other stage of every handler does the same whatever they read. So two states
 * that differ in their odometers alone stay in step, firing by firing, until a departure comes up
 * that refuels in one of them and not in the other.
 */
module SimMiles {
  import opened Generators
  import opened SimTypes
  import opened Simulation
  import opened SimRuns
  import opened SimJourneys

  type Odometers = map<TrailerId, real>

  /** The same state with other odometers. */
  function Reading(w: World, o: Odometers): World { w.(odometer := o) }

  function WithMiles(e: Effect, o: Odometers): Effect { e.(world := Reading(e.world, o)) }

  // ----- Stages that do not look at the odometers -----------------------------------------------

  lemma RfidBlind(env: Env, e: Effect, reader: ReaderType, t: TrailerId, hub: Hub, packages: seq<PackageId>, now: int, o: Odometers)
    ensures RfidEffect(env, WithMiles(e, o), reader, t, hub, packages, now) == WithMiles(RfidEffect(env, e, reader, t, hub, packages, now), o)
  {
    hide ReadEvents;
  }

  lemma {:induction false} MakePackagesBlind(env: Env, e: Effect, count: nat, now: int, o: Odometers)
    requires env.Ok()
    ensures MakePackages(env, WithMiles(e, o), count, now) == WithMiles(MakePackages(env, e, count, now), o)
  {
    hide MakePackage;
    if count > 0 {
      MakePackagesBlind(env, e, count - 1, now, o);
      MakePackageBlind(env, MakePackages(env, e, count - 1, now), now, o);
    }
  }

  lemma MakePackageBlind(env: Env, e: Effect, now: int, o: Odometers)
    requires env.Ok()
    ensures MakePackage(env, WithMiles(e, o), now) == WithMiles(MakePackage(env, e, now), o)
  {
    hide Draw, Next, PushTo;
  }

  lemma CreateBatchBlind(env: Env, e: Effect, tick: int, now: int, o: Odometers)
    requires env.Ok()
    ensures CreateBatch(env, WithMiles(e, o), tick, now) == WithMiles(CreateBatch(env, e, tick, now), o)
  {
    hide MakePackages, QuietWindow, BatchSize;
    var (w', count) := BatchSize(env, e.rng.base);
    MakePackagesBlind(env, e.(rng := e.rng.(base := w')), Hos.Max(0, count), now, o);
  }

  lemma InductBlind(env: Env, e: Effect, tick: int, now: int, o: Odometers)
    requires env.Ok()
    ensures Induct(env, WithMiles(e, o), tick, now) == WithMiles(Induct(env, e, tick, now), o)
  {
    hide Draw, Next, PushTo, OtherSpoke, SlaBuffer;
  }

  lemma {:induction false} UnloadAllBlind(env: Env, e: Effect, carried: seq<PackageId>, held: Option<PackageId>, spoke: Hub,
                                          arriveTick: int, now: int, o: Odometers)
    ensures UnloadAll(env, WithMiles(e, o), carried, held, spoke, arriveTick, now)
            == WithMiles(UnloadAll(env, e, carried, held, spoke, arriveTick, now), o)
  {
    hide Draw, Next, UnloadEvents;
    if carried != [] { UnloadAllBlind(env, e, carried[..|carried| - 1], held, spoke, arriveTick, now, o); }
  }

  lemma UnloadPhaseBlind(env: Env, e: Effect, t: TrailerId, spoke: Hub, trip: TripId, carried: seq<PackageId>, tick: int, now: int, o: Odometers)
    ensures var (r, held) := UnloadPhase(env, e, t, spoke, trip, carried, tick, now);
            UnloadPhase(env, WithMiles(e, o), t, spoke, trip, carried, tick, now) == (WithMiles(r, o), held)
  {
    hide UnloadAll, PhaseEvents;
    var (drawn, held) := HoldBack(env, e, carried);
    UnloadAllBlind(env, drawn, carried, held, spoke, tick, now, o);
  }

  lemma DockBlind(env: Env, e: Effect, t: TrailerId, spoke: Hub, trip: TripId, carried: seq<PackageId>, now: int, o: Odometers)
    ensures Dock(env, WithMiles(e, o), t, spoke, trip, carried, now) == WithMiles(Dock(env, e, t, spoke, trip, carried, now), o)
  {
    hide RfidEffect, PhaseEvents, ArrivalEvents;
    RfidBlind(env, e.Emit(ArrivalEvents(t, spoke, trip, now) + PhaseEvents(env, UnloadStarted, t, spoke, trip, now)),
              Antenna, t, spoke, carried, now, o);
  }

  lemma RideOnBlind(env: Env, e: Effect, t: TrailerId, spoke: Hub, held: Option<PackageId>, tick: int, now: int, o: Odometers)
    ensures RideOn(env, WithMiles(e, o), t, spoke, held, tick, now) == WithMiles(RideOn(env, e, t, spoke, held, tick, now), o)
  {
    hide RfidEffect, DrawTransit;
    if held.Some? {
      var trip := e.world.tripCounter + 1;
      var left := e.(world := e.world.(tripCounter := trip))
                   .Emit([OnTrailer(t, TrailerDeparted(t, spoke, Center, trip, [held.value]), now)]);
      RfidBlind(env, left, Portal, t, spoke, [held.value], now, o);
    }
  }

  lemma ConsolidateBlind(env: Env, e: Effect, t: TrailerId, spoke: Hub, tick: int, now: int, o: Odometers)
    ensures Consolidate(env, WithMiles(e, o), t, spoke, tick, now) == WithMiles(Consolidate(env, e, t, spoke, tick, now), o)
  {
    hide RfidEffect, DrawTransit, SortIds, LoadScans, Manifest;
    var consolidated := SortIds(env, Manifest(e.world.pendingAtSpoke, spoke));
    var trip := e.world.tripCounter + 1;
    var left := e.(world := e.world.(tripCounter := trip, pendingAtSpoke := e.world.pendingAtSpoke[spoke := []]))
                 .Emit(LoadScans(consolidated, spoke, now) + [OnTrailer(t, TrailerDeparted(t, spoke, Center, trip, consolidated), now)]);
    RfidBlind(env, left, Portal, t, spoke, consolidated, now, o);
  }

  lemma ArriveBlind(env: Env, e: Effect, t: TrailerId, spoke: Hub, trip: TripId, carried: seq<PackageId>, tick: int, now: int, o: Odometers)
    ensures Arrive(env, WithMiles(e, o), t, spoke, trip, carried, tick, now)
            == WithMiles(Arrive(env, e, t, spoke, trip, carried, tick, now), o)
  {
    hide Dock, UnloadPhase, RideOn, Consolidate, DrawDwell;
    DockBlind(env, e, t, spoke, trip, carried, now, o);
    var docked := Dock(env, e, t, spoke, trip, carried, now);
    UnloadPhaseBlind(env, docked, t, spoke, trip, carried, tick, now, o);
    var (unloaded, held) := UnloadPhase(env, docked, t, spoke, trip, carried, tick, now);
    RideOnBlind(env, unloaded, t, spoke, held, tick, now, o);
    ConsolidateBlind(env, RideOn(env, unloaded, t, spoke, held, tick, now), t, spoke, tick, now, o);
  }

  lemma {:induction false} CrossDockBlind(e: Effect, packages: seq<PackageId>, now: int, o: Odometers)
    ensures CrossDock(WithMiles(e, o), packages, now) == WithMiles(CrossDock(e, packages, now), o)
  {
    hide PushTo, UnloadEvents;
    if packages != [] { CrossDockBlind(e, packages[..|packages| - 1], now, o); }
  }

  /** No task but a departure looks at the odometers, or changes them. */
  lemma FireBlind(env: Env, rng: RngStates, w: World, task: SimTask, now: int, o: Odometers)
    requires env.Ok() && !task.DepartTrailer?
    ensures Fire(env, rng, Reading(w, o), task, now) == WithMiles(Fire(env, rng, w, task, now), o)
    ensures Fire(env, rng, w, task, now).world.odometer == w.odometer
  {
    FireOnOthers(env, rng, w, task, now, o);
    FireOnOthers(env, rng, w, task, now, w.odometer);
    assert Reading(w, w.odometer) == w;
  }

  lemma FireOnOthers(env: Env, rng: RngStates, w: World, task: SimTask, now: int, o: Odometers)
    requires env.Ok() && !task.DepartTrailer?
    ensures Fire(env, rng, Reading(w, o), task, now) == WithMiles(Fire(env, rng, w, task, now), o)
  {
    hide CreateBatch, Induct, Arrive, CrossDock, ArrivalEvents, RestEvents, RefuelEvent, UnloadEvents;
    var e := Effect(rng, w, [], []);
    match task
    case CreatePackageBatch(tick) => CreateBatchBlind(env, e, tick, now, o);
    case InductPackage(tick) => InductBlind(env, e, tick, now, o);
    case ArriveTrailer(t, spoke, trip, carried, tick) => ArriveBlind(env, e, t, spoke, trip, carried, tick, now, o);
    case ArriveConsolidationAtCenter(t, packages, trip) =>
      CrossDockBlind(e.Emit(ArrivalEvents(t, Center, trip, now)), packages, now, o);
    case _ =>
  }

  // ----- The first half of a departure ------------------------------------------------------------

  lemma SelectBlind(env: Env, w: World, t: TrailerId, trip: TripId, leg: int, now: int, o: Odometers)
    ensures var r := SelectDriver(env, w, t, trip, leg, now);
            SelectDriver(env, Reading(w, o), t, trip, leg, now) == r.(world := Reading(r.world, o))
  {
    hide LegalMinutes, Relay, FirstFree;
    var current := DriverOf(w, t);
    FirstFreeBlind(w, w.sparePool, current, now, o);
    var relief := FirstFree(w, w.sparePool, current, now);
    if relief.Some? { RelayBlind(env, w, t, trip, current, relief.value, now, o); }
  }

  lemma RelayBlind(env: Env, w: World, t: TrailerId, trip: TripId, current: DriverId, relief: DriverId, now: int, o: Odometers)
    ensures var r := Relay(env, w, t, trip, current, relief, now);
            Relay(env, Reading(w, o), t, trip, current, relief, now) == r.(world := Reading(r.world, o))
  {
    hide RemoveFirst;
  }

  lemma {:induction false} FirstFreeBlind(w: World, pool: seq<DriverId>, current: DriverId, now: int, o: Odometers)
    ensures FirstFree(Reading(w, o), pool, current, now) == FirstFree(w, pool, current, now)
  {
    if pool != [] { FirstFreeBlind(w, pool[1..], current, now, o); }
  }

  lemma DispatchBlind(env: Env, e: Effect, t: TrailerId, trip: TripId, transit: int, now: int, o: Odometers)
    ensures Dispatch(env, WithMiles(e, o), t, trip, transit, now) == WithMiles(Dispatch(env, e, t, trip, transit, now), o)
  {
    hide SelectDriver;
    SelectBlind(env, e.world, t, trip, transit, now, o);
  }

  function AccrualWith(a: Accrual, o: Odometers): Accrual { a.(effect := WithMiles(a.effect, o)) }

  lemma DriveOutBlind(env: Env, e: Effect, t: TrailerId, transit: nat, now: int, o: Odometers)
    requires env.Ok()
    ensures DriveOut(env, WithMiles(e, o), t, transit, now) == AccrualWith(DriveOut(env, e, t, transit, now), o)
  {
    hide LegPauses, Hos.DriveLeg;
  }

  lemma RollBlind(env: Env, e: Effect, t: TrailerId, spoke: Hub, now: int, o: Odometers)
    ensures var (r, transit) := Roll(env, e, t, spoke, now);
            Roll(env, WithMiles(e, o), t, spoke, now) == (WithMiles(r, o), transit)
  {
    hide LoadScans, PhaseEvents, Manifest, DrawTransit;
  }

  lemma LaunchBlind(env: Env, e: Effect, t: TrailerId, spoke: Hub, now: int, o: Odometers)
    requires env.Ok()
    ensures var (a, transit) := Launch(env, e, t, spoke, now);
            Launch(env, WithMiles(e, o), t, spoke, now) == (AccrualWith(a, o), transit)
  {
    hide Roll, Dispatch, RfidEffect, DriveOut, Manifest;
    RollBlind(env, e, t, spoke, now, o);
    var (rolled, transit) := Roll(env, e, t, spoke, now);
    var trip, loaded := e.world.tripCounter + 1, Manifest(e.world.pendingBySpoke, spoke);
    DispatchBlind(env, rolled, t, trip, transit, now, o);
    var dispatched := Dispatch(env, rolled, t, trip, transit, now);
    RfidBlind(env, dispatched, Portal, t, Center, loaded, now, o);
    DriveOutBlind(env, RfidEffect(env, dispatched, Portal, t, Center, loaded, now), t, transit, now, o);
  }

  // ----- The odometer at the end of a departure -------------------------------------------------------

  function Miles(o: Odometers, t: TrailerId): real { GetOr(o, t, 0.0) }

  /** The trip refuels once the miles on the odometer and those of the leg reach the range. */
  predicate Refuels(env: Env, x: real, leg: real) { x + leg >= env.fuelConfig.refuelThresholdMiles }

  function NextMiles(env: Env, x: real, leg: real): real { if Refuels(env, x, leg) then 0.0 else x + leg }

  function Leg(env: Env, spoke: Hub): real { env.legMiles(Center, spoke) }

  lemma LaunchKeepsMiles(env: Env, e: Effect, t: TrailerId, spoke: Hub, now: int)
    requires env.Ok()
    ensures Launch(env, e, t, spoke, now).0.effect.world.odometer == e.world.odometer
  {
    hide Launch;
    LaunchBlind(env, e, t, spoke, now, e.world.odometer);
    assert WithMiles(e, e.world.odometer) == e;
  }

  lemma UnderwayMiles(env: Env, a: Accrual, t: TrailerId, spoke: Hub, trip: TripId, loaded: seq<PackageId>,
                      transit: nat, departTick: int, now: int)
    requires env.fuelOn
    ensures var o := a.effect.world.odometer;
            Underway(env, a, t, spoke, trip, loaded, transit, departTick, now).world.odometer
            == o[t := NextMiles(env, Miles(o, t), Leg(env, spoke))]
  {
    AccruedMiles(env, a.effect.world, t, spoke);
    hide AccrueMiles, DriverOf;
  }

  lemma AccruedMiles(env: Env, w: World, t: TrailerId, spoke: Hub)
    requires env.fuelOn
    ensures AccrueMiles(env, w, t, spoke).world.odometer == w.odometer[t := NextMiles(env, Miles(w.odometer, t), Leg(env, spoke))]
  {
    hide Round;
  }

  /** Where both refuel with the same miles, or neither does, the departures end alike. */
  lemma UnderwayAlike(env: Env, a: Accrual, t: TrailerId, spoke: Hub, trip: TripId, loaded: seq<PackageId>,
                      transit: nat, departTick: int, now: int, o: Odometers)
    requires env.fuelOn
    requires var x, y, m := Miles(a.effect.world.odometer, t), Miles(o, t), Leg(env, spoke);
             Refuels(env, x, m) == Refuels(env, y, m) && (Refuels(env, x, m) ==> x == y)
    ensures Underway(env, AccrualWith(a, o), t, spoke, trip, loaded, transit, departTick, now)
            == WithMiles(Underway(env, a, t, spoke, trip, loaded, transit, departTick, now),
                         o[t := NextMiles(env, Miles(o, t), Leg(env, spoke))])
  {
    hide Round;
    var here, there := AccrueMiles(env, a.effect.world, t, spoke), AccrueMiles(env, Reading(a.effect.world, o), t, spoke);
    assert there == here.(world := Reading(a.effect.world, o[t := NextMiles(env, Miles(o, t), Leg(env, spoke))]));
    MilesTouchOnlyTheOdometer(env, a.effect.world, t, spoke);
    hide AccrueMiles;
  }

  /** The stops of a trip that refuels, and the trip and decision of any other. */
  lemma UnderwayStops(env: Env, a: Accrual, t: TrailerId, spoke: Hub, trip: TripId, loaded: seq<PackageId>,
                      transit: nat, departTick: int, now: int)
    requires env.fuelOn && a.effect.spawned == []
    ensures var x, m := Miles(a.effect.world.odometer, t), Leg(env, spoke);
            var spawned := Underway(env, a, t, spoke, trip, loaded, transit, departTick, now).spawned;
            && (Refuels(env, x, m) ==> Timed(departTick + transit / 2, MidLegStops(t, trip, a.rests, true, x + m)) in spawned)
            && forall i :: 0 <= i < |spawned| && spawned[i].task.MidLegStops? ==>
                 spawned[i].task.trip == trip && spawned[i].task.didRefuel == Refuels(env, x, m)
  {
    hide Round, DriverOf;
    var spawned := Underway(env, a, t, spoke, trip, loaded, transit, departTick, now).spawned;
    assert Refuels(env, Miles(a.effect.world.odometer, t), Leg(env, spoke)) ==>
      spawned[0] == Timed(departTick + transit / 2,
                          MidLegStops(t, trip, a.rests, true, Miles(a.effect.world.odometer, t) + Leg(env, spoke)));
  }
}
