/**
 * Every arrival took the time its leg demands. A trailer that is under way, or has arrived at a spoke, left at
 * a departure of the same run, and its arrival is that of the leg driven legally by the driver named then.
 */
module SimArrivals {
  import Hos
  import HosLaws
  import opened Generators
  import opened SimTypes
  import opened EventQueues
  import opened Simulation
  import opened SimRuns
  import opened SimFreight
  import opened SimBooks
  import opened SimChunks
  import opened SimJourneys
  import opened SimTimeline
  import opened SimLegs

  // ----- What a leg takes --------------------------------------------------------------------------

  /**
   * With hours of service on, a trailer is never there before its driver may legally have driven the leg.
   * Without refuelling it is there exactly then, plus the jitter of the pauses; with it, the longer of the
   * pauses and the refuelling counts, once.
   */
  lemma NoArrivalBeforeTheLegIsDriven(env: Env, rng: RngStates, w: World, t: TrailerId, spoke: Hub, at: int, clock: Hos.HosClock)
    requires env.Ok() && env.hosOn
    ensures var transit := TransitOf(env, rng, spoke);
      var leg := Hos.DriveLeg(clock, env.hosConfig, transit, at);
      var jitters := Jitters(env, rng.hos, |PausesOf(leg.segments)|);
      var arrive := ArrivalTick(env, rng, w, t, spoke, at, clock);
      && leg.endMin <= arrive
      && (!Refuels(env, w, t, spoke) ==> arrive == leg.endMin + jitters)
      && (Refuels(env, w, t, spoke) ==>
            var rested := leg.endMin - at - transit + jitters;
            arrive == at + transit + if rested >= RefuelMinutes(env) then rested else RefuelMinutes(env))
  {
    var transit := TransitOf(env, rng, spoke);
    var leg := Hos.DriveLeg(clock, env.hosConfig, transit, at);
    HosLaws.LegTotals(clock, env.hosConfig, transit, at);
    DrivingAndPauses(leg.segments);
    MinutesArePositive(leg.segments);
    MinutesArePositive(PausesOf(leg.segments));
    hide Hos.DriveLeg, PausesOf, MinutesOf, Jitters, Refuels, RefuelMinutes, TransitOf;
  }

  /** With hours of service off only the refuelling is added. */
  lemma OffDutyArrival(env: Env, rng: RngStates, w: World, t: TrailerId, spoke: Hub, at: int, clock: Hos.HosClock)
    requires env.Ok() && !env.hosOn
    ensures ArrivalTick(env, rng, w, t, spoke, at, clock)
         == at + TransitOf(env, rng, spoke) + (if Refuels(env, w, t, spoke) && RefuelMinutes(env) > 0 then RefuelMinutes(env) else 0)
  {
    NothingNeeded(env, rng, spoke, at, clock);
    hide Refuels, RefuelMinutes, TransitOf;
  }

  // ----- Which events a handler logs ---------------------------------------------------------------

  /** An arrival at a spoke. */
  predicate Landing(e: DomainEvent) { e.TrailerArrivedAtHub? && e.hub != Center }

  /** Handling on the way: nothing begins, nothing is delivered, nobody stops, no trailer reaches a spoke. */
  predicate Handling(e: DomainEvent) {
    && !Landing(e) && !e.PackageCreated? && !e.PackageInducted? && !e.PackageDelivered? && !e.TruckRested? && !e.TruckRefueled?
  }

  ghost predicate AllHandling(events: seq<SimEvent>) { forall i :: 0 <= i < |events| ==> Handling(events[i].event) }

  predicate SameCounters(w: World, v: World) {
    w.packageCounter == v.packageCounter && w.inductionCounter == v.inductionCounter && w.deliveredCounter == v.deliveredCounter
  }

  /** The stage logs handling and nothing else, and counts no package. */
  ghost predicate Handles(e: Effect, r: Effect) {
    e.events <= r.events && AllHandling(r.events[|e.events|..]) && SameCounters(e.world, r.world)
  }

  lemma HandlesThen(e: Effect, m: Effect, r: Effect)
    requires Handles(e, m) && Handles(m, r)
    ensures Handles(e, r)
  {
    var more := r.events[|e.events|..];
    assert more == m.events[|e.events|..] + r.events[|m.events|..];
  }

  lemma RfidHandles(env: Env, e: Effect, reader: ReaderType, t: TrailerId, hub: Hub, packages: seq<PackageId>, now: int)
    ensures Handles(e, RfidEffect(env, e, reader, t, hub, packages, now))
  {
  }

  lemma RollHandles(env: Env, e: Effect, t: TrailerId, spoke: Hub, now: int)
    ensures Handles(e, Roll(env, e, t, spoke, now).0)
  {
  }

  lemma DispatchHandles(env: Env, e: Effect, t: TrailerId, trip: TripId, transit: int, now: int)
    ensures Handles(e, Dispatch(env, e, t, trip, transit, now))
  {
    hide FirstFree, LegalMinutes, RemoveFirst, ClockOf;
  }

  lemma {:induction false} LegPausesHandle(env: Env, w: Word, d: DriverId, log: seq<Hos.DutySegment>, clock: Hos.HosClock, now: int)
    ensures AllHandling(LegPauses(env, w, d, log, clock, now).events)
  {
    if log != [] { LegPausesHandle(env, w, d, log[..|log| - 1], clock, now); }
  }

  lemma DriveOutHandles(env: Env, e: Effect, t: TrailerId, transit: nat, now: int)
    requires env.Ok()
    ensures Handles(e, DriveOut(env, e, t, transit, now).effect)
  {
    hide LegPauses;
    if env.hosOn {
      var d := DriverOf(e.world, t);
      var leg := Hos.DriveLeg(ClockOf(e.world, d), env.hosConfig, transit, now);
      LegPausesHandle(env, e.rng.hos, d, leg.segments, leg.clock, now);
    }
  }

  lemma DepartHandles(env: Env, e: Effect, t: TrailerId, spoke: Hub, departTick: int, now: int)
    requires env.Ok()
    ensures Handles(e, Depart(env, e, t, spoke, departTick, now))
  {
    hide Roll, Dispatch, RfidEffect, DriveOut, Underway, Manifest, Handles;
    RollHandles(env, e, t, spoke, now);
    var (rolled, transit) := Roll(env, e, t, spoke, now);
    var trip, loaded := e.world.tripCounter + 1, Manifest(e.world.pendingBySpoke, spoke);
    var dispatched := Dispatch(env, rolled, t, trip, transit, now);
    DispatchHandles(env, rolled, t, trip, transit, now);
    RfidHandles(env, dispatched, Portal, t, Center, loaded, now);
    var read := RfidEffect(env, dispatched, Portal, t, Center, loaded, now);
    DriveOutHandles(env, read, t, transit, now);
    var a := DriveOut(env, read, t, transit, now);
    UnderwaySilent(env, a, t, spoke, trip, loaded, transit, departTick, now);
    UnderwayCounts(env, a, t, spoke, trip, loaded, transit, departTick, now);
    HandlesThen(e, rolled, dispatched);
    HandlesThen(e, dispatched, read);
    HandlesThen(e, read, a.effect);
    SameEventsHandle(e, a.effect, Underway(env, a, t, spoke, trip, loaded, transit, departTick, now));
  }

  lemma UnderwayCounts(env: Env, a: Accrual, t: TrailerId, spoke: Hub, trip: TripId, loaded: seq<PackageId>, transit: nat, departTick: int, now: int)
    ensures SameCounters(a.effect.world, Underway(env, a, t, spoke, trip, loaded, transit, departTick, now).world)
  {
    MilesTouchOnlyTheOdometer(env, a.effect.world, t, spoke);
    hide AccrueMiles;
  }

  lemma SameEventsHandle(e: Effect, m: Effect, r: Effect)
    requires Handles(e, m) && r.events == m.events && SameCounters(m.world, r.world)
    ensures Handles(e, r)
  {
  }

  lemma UnloadOneHandles(env: Env, e: Effect, p: PackageId, spoke: Hub, arriveTick: int, now: int)
    ensures Handles(e, UnloadOne(env, e, p, spoke, arriveTick, now))
  {
    hide Draw;
  }

  lemma {:induction false} UnloadAllHandles(
    env: Env, e: Effect, carried: seq<PackageId>, held: Option<PackageId>, spoke: Hub, arriveTick: int, now: int)
    ensures Handles(e, UnloadAll(env, e, carried, held, spoke, arriveTick, now))
  {
    if carried == [] {
      assert e.events[|e.events|..] == [];
    } else {
      hide UnloadOne, Handles;
      var front, p := carried[..|carried| - 1], carried[|carried| - 1];
      UnloadAllHandles(env, e, front, held, spoke, arriveTick, now);
      var before := UnloadAll(env, e, front, held, spoke, arriveTick, now);
      UnloadOneHandles(env, before, p, spoke, arriveTick, now);
      HandlesThen(e, before, UnloadOne(env, before, p, spoke, arriveTick, now));
    }
  }

  lemma UnloadPhaseHandles(env: Env, e: Effect, t: TrailerId, spoke: Hub, trip: TripId, carried: seq<PackageId>, tick: int, now: int)
    ensures Handles(e, UnloadPhase(env, e, t, spoke, trip, carried, tick, now).0)
  {
    hide UnloadAll;
    var (drawn, held) := HoldBack(env, e, carried);
    UnloadAllHandles(env, drawn, carried, held, spoke, tick, now);
  }

  lemma RideOnHandles(env: Env, e: Effect, t: TrailerId, spoke: Hub, held: Option<PackageId>, tick: int, now: int)
    ensures Handles(e, RideOn(env, e, t, spoke, held, tick, now))
  {
  }

  lemma ConsolidateHandles(env: Env, e: Effect, t: TrailerId, spoke: Hub, tick: int, now: int)
    ensures Handles(e, Consolidate(env, e, t, spoke, tick, now))
  {
    hide SortIds;
  }

  /** An arrival is one landing, of the trailer and trip named, and handling. */
  ghost predicate LandsOnce(events: seq<SimEvent>, t: TrailerId, spoke: Hub, trip: TripId, at: int) {
    events != [] && events[0] == SimEvent(TrailerStream(t), TrailerArrivedAtHub(t, spoke, trip), at) && AllHandling(events[1..])
  }

  lemma DockLands(env: Env, rng: RngStates, w: World, t: TrailerId, spoke: Hub, trip: TripId, carried: seq<PackageId>, now: int)
    ensures LandsOnce(Dock(env, Effect(rng, w, [], []), t, spoke, trip, carried, now).events, t, spoke, trip, now)
    ensures SameCounters(w, Dock(env, Effect(rng, w, [], []), t, spoke, trip, carried, now).world)
  {
  }

  lemma LandsThen(e: Effect, r: Effect, t: TrailerId, spoke: Hub, trip: TripId, at: int)
    requires LandsOnce(e.events, t, spoke, trip, at) && Handles(e, r)
    ensures LandsOnce(r.events, t, spoke, trip, at) && SameCounters(e.world, r.world)
  {
    assert r.events[1..] == e.events[1..] + r.events[|e.events|..];
  }

  lemma ArriveLands(env: Env, rng: RngStates, w: World, t: TrailerId, spoke: Hub, trip: TripId, carried: seq<PackageId>, tick: int, now: int)
    ensures LandsOnce(Arrive(env, Effect(rng, w, [], []), t, spoke, trip, carried, tick, now).events, t, spoke, trip, now)
    ensures SameCounters(w, Arrive(env, Effect(rng, w, [], []), t, spoke, trip, carried, tick, now).world)
  {
    hide Dock, UnloadPhase, RideOn, Consolidate, DrawDwell, Handles, LandsOnce;
    var e := Effect(rng, w, [], []);
    DockLands(env, rng, w, t, spoke, trip, carried, now);
    var docked := Dock(env, e, t, spoke, trip, carried, now);
    UnloadPhaseHandles(env, docked, t, spoke, trip, carried, tick, now);
    var (unloaded, held) := UnloadPhase(env, docked, t, spoke, trip, carried, tick, now);
    LandsThen(docked, unloaded, t, spoke, trip, now);
    RideOnHandles(env, unloaded, t, spoke, held, tick, now);
    var ridden := RideOn(env, unloaded, t, spoke, held, tick, now);
    LandsThen(unloaded, ridden, t, spoke, trip, now);
    ConsolidateHandles(env, ridden, t, spoke, tick, now);
    var consolidated := Consolidate(env, ridden, t, spoke, tick, now);
    LandsThen(ridden, consolidated, t, spoke, trip, now);
    LandsSame(consolidated.events, TurnAround(env, consolidated, t, spoke, tick).events, t, spoke, trip, now);
  }

  lemma LandsSame(a: seq<SimEvent>, b: seq<SimEvent>, t: TrailerId, spoke: Hub, trip: TripId, at: int)
    requires LandsOnce(a, t, spoke, trip, at) && b == a
    ensures LandsOnce(b, t, spoke, trip, at)
  {
  }

  lemma {:induction false} CrossDockHandles(e: Effect, packages: seq<PackageId>, now: int)
    ensures Handles(e, CrossDock(e, packages, now))
  {
    hide PushTo;
    if packages != [] { CrossDockHandles(e, packages[..|packages| - 1], now); }
  }

  /** New packages and their inbound scans. */
  lemma {:induction false} MakePackagesBegin(env: Env, e: Effect, count: nat, now: int)
    requires env.Ok()
    ensures var r := MakePackages(env, e, count, now);
      e.events <= r.events && forall i :: |e.events| <= i < |r.events| ==> r.events[i].event.PackageCreated? || Handling(r.events[i].event)
  {
    hide PushTo, Draw;
    if count > 0 { MakePackagesBegin(env, e, count - 1, now); }
  }

  /** Which events a firing may log, by the kind of its task. */
  ghost predicate LogsFor(task: SimTask, e: SimEvent, at: int) {
    match task
    case CreatePackageBatch(_) => e.event.PackageCreated? || Handling(e.event)
    case InductPackage(_) => e.event.PackageInducted?
    case MidLegStops(_, _, _, _, _) => e.event.TruckRested? || e.event.TruckRefueled?
    case DeliverPackage(_, _, _, _) => e.event.PackageDelivered?
    case ArriveTrailer(t, spoke, trip, _, _) => Handling(e.event) || e == SimEvent(TrailerStream(t), TrailerArrivedAtHub(t, spoke, trip), at)
    case _ => Handling(e.event)
  }

  lemma FireLogs(env: Env, rng: RngStates, w: World, task: SimTask, at: int, i: nat)
    requires env.Ok() && i < |Fire(env, rng, w, task, at).events|
    ensures LogsFor(task, Fire(env, rng, w, task, at).events[i], at)
  {
    var e := Effect(rng, w, [], []);
    match task
    case CreatePackageBatch(tick) =>
      hide CreateBatch, LogsFor;
      BatchLogs(env, e, tick, at, i);
    case DepartTrailer(t, spoke, departTick) =>
      hide Depart, Handling;
      DepartHandles(env, e, t, spoke, departTick, at);
      assert e.events == [];
    case ArriveTrailer(t, spoke, trip, carried, tick) =>
      hide Arrive, LogsFor;
      ArrivalLogs(env, rng, w, t, spoke, trip, carried, tick, at, i);
    case ArriveConsolidationAtCenter(t, packages, trip) =>
      hide ArriveConsolidation, Handling;
      ConsolidationHandles(e, t, packages, trip, at);
      assert e.events == [];
    case InductPackage(_) => hide Fire, LogsFor; InductLogs(env, rng, w, task, at, i);
    case _ => hide Fire, LogsFor; OthersLog(env, rng, w, task, at, i);
  }

  lemma InductLogs(env: Env, rng: RngStates, w: World, task: SimTask, at: int, i: nat)
    requires env.Ok() && task.InductPackage? && i < |Fire(env, rng, w, task, at).events|
    ensures LogsFor(task, Fire(env, rng, w, task, at).events[i], at)
  {
    hide Draw, PushTo, Handling;
  }

  lemma OthersLog(env: Env, rng: RngStates, w: World, task: SimTask, at: int, i: nat)
    requires env.Ok() && (task.DeliverPackage? || task.MidLegStops? || task.ArriveOverCarriedAtCenter?)
    requires i < |Fire(env, rng, w, task, at).events|
    ensures LogsFor(task, Fire(env, rng, w, task, at).events[i], at)
  {
    hide CreateBatch, Depart, Arrive, ArriveConsolidation;
  }

  lemma ArrivalLogs(env: Env, rng: RngStates, w: World, t: TrailerId, spoke: Hub, trip: TripId, carried: seq<PackageId>, tick: int, at: int, i: nat)
    requires i < |Arrive(env, Effect(rng, w, [], []), t, spoke, trip, carried, tick, at).events|
    ensures LogsFor(SimTask.ArriveTrailer(t, spoke, trip, carried, tick), Arrive(env, Effect(rng, w, [], []), t, spoke, trip, carried, tick, at).events[i], at)
  {
    hide Arrive, Handling;
    ArriveLands(env, rng, w, t, spoke, trip, carried, tick, at);
    var all := Arrive(env, Effect(rng, w, [], []), t, spoke, trip, carried, tick, at).events;
    assert i > 0 ==> all[i] == all[1..][i - 1];
  }

  lemma ConsolidationHandles(e: Effect, t: TrailerId, packages: seq<PackageId>, trip: TripId, at: int)
    ensures Handles(e, ArriveConsolidation(e, t, packages, trip, at))
  {
    hide CrossDock;
    var docked := e.Emit(ArrivalEvents(t, Center, trip, at));
    CrossDockHandles(docked, packages, at);
    assert Handles(e, docked);
    HandlesThen(e, docked, CrossDock(docked, packages, at));
  }

  lemma BatchLogs(env: Env, e: Effect, tick: int, at: int, i: nat)
    requires env.Ok() && e.events == [] && i < |CreateBatch(env, e, tick, at).events|
    ensures LogsFor(CreatePackageBatch(tick), CreateBatch(env, e, tick, at).events[i], at)
  {
    hide MakePackages;
    if !QuietWindow(env, tick) {
      var (w', count) := BatchSize(env, e.rng.base);
      MakePackagesBegin(env, e.(rng := e.rng.(base := w')), Hos.Max(0, count), at);
    }
  }

  // ----- Whole runs -----------------------------------------------------------------------------------

  /** The `m`-th firing was a departure that sent this trailer off, to arrive at this tick, under this crew. */
  ghost predicate SentOff(env: Env, seed: Word, m: nat, arrival: SimTask, crew: Crew)
    requires env.Ok() && arrival.ArriveTrailer?
  {
    var h := After(env, seed, m);
    && h.core.queue != []
    && var head := h.core.queue[0];
    && head.task == DepartTrailer(arrival.trailer, arrival.spoke, head.fireTick)
    && arrival.trip == h.core.world.tripCounter + 1 && arrival.carried == Manifest(h.core.world.pendingBySpoke, arrival.spoke)
    && arrival.arriveTick == ArrivalTick(env, h.core.rng, h.core.world, arrival.trailer, arrival.spoke, head.fireTick, crew.clock)
    && Departs(env, h.core.rng, h.core.world, arrival.trailer, arrival.spoke, head.fireTick, crew,
               Fire(env, h.core.rng, h.core.world, head.task, head.fireTick))
  }

  ghost predicate Sent(env: Env, seed: Word, n: nat, arrival: SimTask)
    requires env.Ok() && arrival.ArriveTrailer?
  {
    exists m: nat, crew :: m < n && SentOff(env, seed, m, arrival, crew)
  }

  ghost predicate Arrived(env: Env, seed: Word, n: nat, e: SimEvent)
    requires env.Ok() && Landing(e.event)
  {
    exists carried :: Sent(env, seed, n, SimTask.ArriveTrailer(e.event.trailer, e.event.hub, e.event.trip, carried, e.at))
  }

  ghost predicate AllSent(env: Env, seed: Word, n: nat, h: History)
    requires env.Ok()
  {
    && (forall x :: x in h.core.queue && x.task.ArriveTrailer? ==> Sent(env, seed, n, x.task))
    && (forall i :: 0 <= i < |h.log| && Landing(h.log[i].event) ==> Arrived(env, seed, n, h.log[i]))
  }

  lemma SentLater(env: Env, seed: Word, n: nat, arrival: SimTask)
    requires env.Ok() && arrival.ArriveTrailer? && Sent(env, seed, n, arrival)
    ensures Sent(env, seed, n + 1, arrival)
  {
    hide SentOff;
    var m: nat, crew :| m < n && SentOff(env, seed, m, arrival, crew);
  }

  lemma ArrivedLater(env: Env, seed: Word, n: nat, e: SimEvent)
    requires env.Ok() && Landing(e.event) && Arrived(env, seed, n, e)
    ensures Arrived(env, seed, n + 1, e)
  {
    hide Sent;
    var carried :| Sent(env, seed, n, SimTask.ArriveTrailer(e.event.trailer, e.event.hub, e.event.trip, carried, e.at));
    SentLater(env, seed, n, SimTask.ArriveTrailer(e.event.trailer, e.event.hub, e.event.trip, carried, e.at));
  }

  /** Only a departure schedules an arrival, and it is the arrival of its leg. */
  lemma SpawnedArrivalIsSent(env: Env, seed: Word, n: nat, k: nat)
    requires env.Ok()
    requires var h := After(env, seed, n);
      && h.core.queue != [] && OwnTick(h.core.queue[0].task, h.core.queue[0].fireTick)
      && var r := Fire(env, h.core.rng, h.core.world, h.core.queue[0].task, h.core.queue[0].fireTick);
         k < |r.spawned| && r.spawned[k].task.ArriveTrailer?
    ensures var h := After(env, seed, n);
      Sent(env, seed, n + 1, Fire(env, h.core.rng, h.core.world, h.core.queue[0].task, h.core.queue[0].fireTick).spawned[k].task)
  {
    hide Fire, After, Departs, Schedules, ArrivalTick;
    var h := After(env, seed, n);
    var head := h.core.queue[0];
    var r := Fire(env, h.core.rng, h.core.world, head.task, head.fireTick);
    FireReschedules(env, h.core.rng, h.core.world, head.task, head.fireTick);
    assert head.task.DepartTrailer?;
    var t, spoke, at := head.task.trailer, head.task.spoke, head.fireTick;
    var crew := DepartureIs(env, h.core.rng, h.core.world, t, spoke, at);
    ArrivalScheduled(env, h.core.rng, h.core.world, t, spoke, at, crew, r, k);
    assert SentOff(env, seed, n, r.spawned[k].task, crew);
  }

  /** What a departure does, whatever the flags. */
  lemma DepartureIs(env: Env, rng: RngStates, w: World, t: TrailerId, spoke: Hub, at: int) returns (crew: Crew)
    requires env.Ok()
    ensures Departs(env, rng, w, t, spoke, at, crew, Fire(env, rng, w, DepartTrailer(t, spoke, at), at))
  {
    hide Departs, Depart;
    if env.hosOn {
      crew := DepartureOnDuty(env, rng, w, t, spoke, at);
    } else {
      crew := Crew(0, FreshHosClock(at), []);
      DepartureOffDuty(env, rng, w, t, spoke, at, crew);
    }
  }

  lemma ArrivalScheduled(env: Env, rng: RngStates, w: World, t: TrailerId, spoke: Hub, at: int, crew: Crew, r: Effect, k: nat)
    requires env.Ok() && Departs(env, rng, w, t, spoke, at, crew, r) && k < |r.spawned| && r.spawned[k].task.ArriveTrailer?
    ensures var arrive := ArrivalTick(env, rng, w, t, spoke, at, crew.clock);
      r.spawned[k].task == SimTask.ArriveTrailer(t, spoke, w.tripCounter + 1, Manifest(w.pendingBySpoke, spoke), arrive)
  {
    hide ArrivalTick, PausesNeeded, AllShown, Refuels, OdometerAfter, TransitOf, Announced, Booked, Drawn, Manifest;
  }

  lemma StepKeepsSent(env: Env, seed: Word, n: nat)
    requires env.Ok()
    requires var h := After(env, seed, n);
      h.core.queue != [] && Timely(h.core.queue) && AllSent(env, seed, n, h) && After(env, seed, n + 1) == StepHistory(env, h)
    ensures AllSent(env, seed, n + 1, After(env, seed, n + 1))
  {
    hide Fire, After, Sent, Arrived, ScheduleAll;
    var h := After(env, seed, n);
    var head := h.core.queue[0];
    var r := Fire(env, h.core.rng, h.core.world, head.task, head.fireTick);
    var next := StepHistory(env, h);
    assert head in h.core.queue;
    forall x | x in next.core.queue && x.task.ArriveTrailer? ensures Sent(env, seed, n + 1, x.task) {
      ScheduleAllMembers(Queued(h.core.queue[1..], h.core.nextSeq), r.spawned, x);
      if x in h.core.queue[1..] {
        assert x in h.core.queue;
        SentLater(env, seed, n, x.task);
      } else {
        var k :| 0 <= k < |r.spawned| && r.spawned[k] == Timed(x.fireTick, x.task);
        SpawnedArrivalIsSent(env, seed, n, k);
      }
    }
    forall i | 0 <= i < |next.log| && Landing(next.log[i].event) ensures Arrived(env, seed, n + 1, next.log[i]) {
      if i < |h.log| {
        ArrivedLater(env, seed, n, h.log[i]);
      } else {
        LandingIsTheHeads(env, h, i - |h.log|);
        SentLater(env, seed, n, head.task);
        ArrivedAs(env, seed, n + 1, next.log[i], head.task);
      }
    }
  }

  lemma LandingIsTheHeads(env: Env, h: History, i: nat)
    requires env.Ok() && h.core.queue != []
    requires var r := Fire(env, h.core.rng, h.core.world, h.core.queue[0].task, h.core.queue[0].fireTick);
      i < |r.events| && Landing(r.events[i].event)
    ensures var head := h.core.queue[0];
      var e := Fire(env, h.core.rng, h.core.world, head.task, head.fireTick).events[i];
      && head.task.ArriveTrailer?
      && e == SimEvent(TrailerStream(head.task.trailer), TrailerArrivedAtHub(head.task.trailer, head.task.spoke, head.task.trip), head.fireTick)
  {
    hide Fire;
    FireLogs(env, h.core.rng, h.core.world, h.core.queue[0].task, h.core.queue[0].fireTick, i);
  }

  lemma ArrivedAs(env: Env, seed: Word, n: nat, e: SimEvent, arrival: SimTask)
    requires env.Ok() && arrival.ArriveTrailer? && Sent(env, seed, n, arrival) && Landing(e.event)
    requires e.event == TrailerArrivedAtHub(arrival.trailer, arrival.spoke, arrival.trip) && e.at == arrival.arriveTick
    ensures Arrived(env, seed, n, e)
  {
    hide Sent;
    assert arrival == SimTask.ArriveTrailer(e.event.trailer, e.event.hub, e.event.trip, arrival.carried, e.at);
  }

  lemma {:induction false} AllAreSent(env: Env, seed: Word, n: nat)
    requires env.Ok()
    ensures AllSent(env, seed, n, After(env, seed, n))
  {
    hide Bootstrap, StepHistory, AllSent, Books, Timeline, Journeys, Initial;
    if n == 0 {
      NothingSentYet(env, seed);
    } else {
      AllAreSent(env, seed, n - 1);
      InvariantsHold(env, seed, n - 1);
      var h := After(env, seed, n - 1);
      if h.core.queue == [] {
        SameSent(env, seed, n - 1, h);
      } else {
        StepKeepsSent(env, seed, n - 1);
      }
    }
  }

  lemma NothingSentYet(env: Env, seed: Word)
    requires env.Ok()
    ensures AllSent(env, seed, 0, After(env, seed, 0))
  {
    BootstrapQueue(env, seed);
    NoLandingYet(env);
    hide ScheduleAll, InitialSchedule, BootstrapEvents;
  }

  lemma NoLandingYet(env: Env)
    ensures forall i :: 0 <= i < |BootstrapEvents(env)| ==> !Landing(BootstrapEvents(env)[i].event)
  {
  }

  lemma SameSent(env: Env, seed: Word, n: nat, h: History)
    requires env.Ok() && AllSent(env, seed, n, h)
    ensures AllSent(env, seed, n + 1, h)
  {
    hide Sent, Arrived;
    forall x | x in h.core.queue && x.task.ArriveTrailer? ensures Sent(env, seed, n + 1, x.task) { SentLater(env, seed, n, x.task); }
    forall i | 0 <= i < |h.log| && Landing(h.log[i].event) ensures Arrived(env, seed, n + 1, h.log[i]) { ArrivedLater(env, seed, n, h.log[i]); }
  }

  // ----- Main results ---------------------------------------------------------------------------------------

  /** A trailer under way left at an earlier firing, and is due when its leg, with its pauses, has been driven. */
  lemma PendingArrivalTakesTheLeg(env: Env, seed: Word, n: nat, x: Scheduled) returns (m: nat, crew: Crew)
    requires env.Ok() && x in After(env, seed, n).core.queue && x.task.ArriveTrailer?
    ensures m < n && SentOff(env, seed, m, x.task, crew)
    ensures var h := After(env, seed, m);
      env.hosOn ==> Hos.DriveLeg(crew.clock, env.hosConfig, TransitOf(env, h.core.rng, x.task.spoke), h.core.queue[0].fireTick).endMin <= x.task.arriveTick
  {
    hide SentOff, After;
    AllAreSent(env, seed, n);
    m, crew :| m < n && SentOff(env, seed, m, x.task, crew);
    SentTakesTheLeg(env, seed, m, x.task, crew);
  }

  lemma SentTakesTheLeg(env: Env, seed: Word, m: nat, arrival: SimTask, crew: Crew)
    requires env.Ok() && arrival.ArriveTrailer? && SentOff(env, seed, m, arrival, crew)
    ensures var h := After(env, seed, m);
      env.hosOn ==>
        && h.core.queue != []
        && Hos.DriveLeg(crew.clock, env.hosConfig, TransitOf(env, h.core.rng, arrival.spoke), h.core.queue[0].fireTick).endMin <= arrival.arriveTick
  {
    hide After, Departs, ArrivalTick, Hos.DriveLeg;
    var h := After(env, seed, m);
    if env.hosOn {
      NoArrivalBeforeTheLegIsDriven(env, h.core.rng, h.core.world, arrival.trailer, arrival.spoke, h.core.queue[0].fireTick, crew.clock);
    }
  }

  /**
   * In every reachable log: an arrival at a spoke is that of a trip that left the center earlier in the log,
   * and comes no earlier than its departure plus the driving and every mandatory pause of the leg.
   */
  lemma EveryArrivalTookTheLeg(env: Env, seed: Word, n: nat, i: nat) returns (m: nat, carried: seq<PackageId>, crew: Crew, j: nat)
    requires env.Ok() && i < |After(env, seed, n).log| && Landing(After(env, seed, n).log[i].event)
    ensures var e := After(env, seed, n).log[i];
      && m < n && SentOff(env, seed, m, SimTask.ArriveTrailer(e.event.trailer, e.event.hub, e.event.trip, carried, e.at), crew)
      && var h := After(env, seed, m);
      && j < |After(env, seed, n).log|
      && After(env, seed, n).log[j].event == TrailerDeparted(e.event.trailer, Center, e.event.hub, e.event.trip, carried)
      && After(env, seed, n).log[j].at == h.core.queue[0].fireTick
      && (env.hosOn ==>
            Hos.DriveLeg(crew.clock, env.hosConfig, TransitOf(env, h.core.rng, e.event.hub), After(env, seed, n).log[j].at).endMin <= e.at)
  {
    hide SentOff, After;
    var log := After(env, seed, n).log;
    AllAreSent(env, seed, n);
    var e := log[i];
    assert Arrived(env, seed, n, e);
    carried :| Sent(env, seed, n, SimTask.ArriveTrailer(e.event.trailer, e.event.hub, e.event.trip, carried, e.at));
    var arrival := SimTask.ArriveTrailer(e.event.trailer, e.event.hub, e.event.trip, carried, e.at);
    m, crew :| m < n && SentOff(env, seed, m, arrival, crew);
    SentTakesTheLeg(env, seed, m, arrival, crew);
    j := DepartureIsLogged(env, seed, m, arrival, crew);
    LogGrows(env, seed, m + 1, n);
  }

  lemma DepartureIsLogged(env: Env, seed: Word, m: nat, arrival: SimTask, crew: Crew) returns (j: nat)
    requires env.Ok() && arrival.ArriveTrailer? && SentOff(env, seed, m, arrival, crew)
    ensures var h, log := After(env, seed, m), After(env, seed, m + 1).log;
      && h.core.queue != [] && j < |log| && log[j].at == h.core.queue[0].fireTick
      && log[j].event == TrailerDeparted(arrival.trailer, Center, arrival.spoke, arrival.trip, arrival.carried)
  {
    hide Fire, After, Departs, ArrivalTick, Manifest;
    NextAfter(env, seed, m);
    var h := After(env, seed, m);
    j := DepartureJoinsTheLog(env, h.core.rng, h.core.world, arrival.trailer, arrival.spoke, h.core.queue[0].fireTick, crew, h.log);
  }

  lemma DepartureJoinsTheLog(env: Env, rng: RngStates, w: World, t: TrailerId, spoke: Hub, at: int, crew: Crew, log: seq<SimEvent>)
    returns (j: nat)
    requires env.Ok() && Departs(env, rng, w, t, spoke, at, crew, Fire(env, rng, w, DepartTrailer(t, spoke, at), at))
    ensures var longer := log + Fire(env, rng, w, DepartTrailer(t, spoke, at), at).events;
      j < |longer| && longer[j].at == at
      && longer[j].event == TrailerDeparted(t, Center, spoke, w.tripCounter + 1, Manifest(w.pendingBySpoke, spoke))
  {
    hide *;
    var r := Fire(env, rng, w, DepartTrailer(t, spoke, at), at);
    var k := DepartureEvent(env, rng, w, t, spoke, at, crew, r);
    j := |log| + k;
  }

  lemma NextAfter(env: Env, seed: Word, m: nat)
    requires env.Ok() && After(env, seed, m).core.queue != []
    ensures var h := After(env, seed, m);
      After(env, seed, m + 1).log == h.log + Fire(env, h.core.rng, h.core.world, h.core.queue[0].task, h.core.queue[0].fireTick).events
  {
    hide Fire, ScheduleAll, Bootstrap;
    AfterStep(env, After(env, seed, m));
  }

  lemma DepartureEvent(env: Env, rng: RngStates, w: World, t: TrailerId, spoke: Hub, at: int, crew: Crew, r: Effect) returns (k: nat)
    requires env.Ok() && Departs(env, rng, w, t, spoke, at, crew, r)
    ensures k < |r.events|
      && r.events[k] == SimEvent(TrailerStream(t), TrailerDeparted(t, Center, spoke, w.tripCounter + 1, Manifest(w.pendingBySpoke, spoke)), at)
  {
    hide Schedules, Booked, Drawn, PausingEvents, PortalEvents, DrivingEvents, Hos.DriveLeg, PausesOf, Manifest;
    var leaving := LeavingEvents(env, w, t, spoke, at);
    k := |leaving| - 1;
    assert r.events[k] == leaving[k];
  }

  lemma {:induction false} LogGrows(env: Env, seed: Word, m: nat, n: nat)
    requires env.Ok() && m <= n
    ensures After(env, seed, m).log <= After(env, seed, n).log
    decreases n - m
  {
    hide Step, StepHistory, Bootstrap;
    if m < n {
      LogGrows(env, seed, m, n - 1);
      var h := After(env, seed, n - 1);
      if h.core.queue != [] { AfterStep(env, h); }
    }
  }
}
