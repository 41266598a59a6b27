/**
 * Time in the simulator: the clock never moves back, the log is in time order, and a package is
 * delivered at most once; and every run of the drain loop goes through the reachable states.
 */
module SimTimeline {
  import opened Generators
  import opened SimTypes
  import opened EventQueues
  import opened Simulation
  import opened SimRuns
  import opened SimFreight
  import opened SimBooks
  import opened SimChunks
  import opened SimJourneys

  // ----- Events carry the instant they were emitted at -----------------------------------------

  /** Emitted at `now`, and neither a delivery nor a refuelling. */
  ghost predicate Stamped(events: seq<SimEvent>, now: int) {
    forall i :: 0 <= i < |events| ==>
      events[i].at == now && !events[i].event.PackageDelivered? && !events[i].event.TruckRefueled?
  }

  lemma RfidStamped(env: Env, e: Effect, reader: ReaderType, t: TrailerId, hub: Hub, packages: seq<PackageId>, now: int)
    requires Stamped(e.events, now)
    ensures Stamped(RfidEffect(env, e, reader, t, hub, packages, now).events, now)
  {
  }

  lemma {:induction false} MakePackagesStamped(env: Env, e: Effect, count: nat, now: int)
    requires env.Ok() && Stamped(e.events, now)
    ensures Stamped(MakePackages(env, e, count, now).events, now)
  {
    hide PushTo, Draw;
    if count > 0 { MakePackagesStamped(env, e, count - 1, now); }
  }

  lemma {:induction false} LegPausesStamped(env: Env, w: Word, d: DriverId, log: seq<Hos.DutySegment>, clock: Hos.HosClock, now: int)
    ensures Stamped(LegPauses(env, w, d, log, clock, now).events, now)
  {
    if log != [] { LegPausesStamped(env, w, d, log[..|log| - 1], clock, now); }
  }

  lemma {:induction false} UnloadAllStamped(
    env: Env, e: Effect, carried: seq<PackageId>, held: Option<PackageId>, spoke: Hub, arriveTick: int, now: int)
    requires Stamped(e.events, now)
    ensures Stamped(UnloadAll(env, e, carried, held, spoke, arriveTick, now).events, now)
  {
    if carried != [] { UnloadAllStamped(env, e, carried[..|carried| - 1], held, spoke, arriveTick, now); }
  }

  lemma {:induction false} CrossDockStamped(e: Effect, packages: seq<PackageId>, now: int)
    requires Stamped(e.events, now)
    ensures Stamped(CrossDock(e, packages, now).events, now)
  {
    hide PushTo;
    if packages != [] { CrossDockStamped(e, packages[..|packages| - 1], now); }
  }

  lemma RollStamped(env: Env, e: Effect, t: TrailerId, spoke: Hub, now: int)
    requires Stamped(e.events, now)
    ensures Stamped(Roll(env, e, t, spoke, now).0.events, now)
  {
  }

  lemma DispatchStamped(env: Env, e: Effect, t: TrailerId, trip: TripId, transit: int, now: int)
    requires Stamped(e.events, now)
    ensures Stamped(Dispatch(env, e, t, trip, transit, now).events, now)
  {
    hide FirstFree, LegalMinutes, RemoveFirst, ClockOf;
  }

  lemma DriveOutStamped(env: Env, e: Effect, t: TrailerId, transit: nat, now: int)
    requires env.Ok() && Stamped(e.events, now)
    ensures Stamped(DriveOut(env, e, t, transit, now).effect.events, now)
  {
    hide LegPauses;
    if env.hosOn {
      var d := DriverOf(e.world, t);
      var leg := Hos.DriveLeg(ClockOf(e.world, d), env.hosConfig, transit, now);
      LegPausesStamped(env, e.rng.hos, d, leg.segments, leg.clock, now);
    }
  }

  lemma DepartStamped(env: Env, e: Effect, t: TrailerId, spoke: Hub, departTick: int, now: int)
    requires env.Ok() && Stamped(e.events, now)
    ensures Stamped(Depart(env, e, t, spoke, departTick, now).events, now)
  {
    hide Roll, Dispatch, RfidEffect, DriveOut, Underway, Manifest, Stamped;
    RollStamped(env, e, t, spoke, now);
    var (rolled, transit) := Roll(env, e, t, spoke, now);
    var trip, loaded := e.world.tripCounter + 1, Manifest(e.world.pendingBySpoke, spoke);
    var dispatched := Dispatch(env, rolled, t, trip, transit, now);
    DispatchStamped(env, rolled, t, trip, transit, now);
    RfidStamped(env, dispatched, Portal, t, Center, loaded, now);
    var read := RfidEffect(env, dispatched, Portal, t, Center, loaded, now);
    DriveOutStamped(env, read, t, transit, now);
    UnderwaySilent(env, DriveOut(env, read, t, transit, now), t, spoke, trip, loaded, transit, departTick, now);
  }

  lemma DockStamped(env: Env, e: Effect, t: TrailerId, spoke: Hub, trip: TripId, carried: seq<PackageId>, now: int)
    requires Stamped(e.events, now)
    ensures Stamped(Dock(env, e, t, spoke, trip, carried, now).events, now)
  {
    hide RfidEffect;
    RfidStamped(env, e.Emit(ArrivalEvents(t, spoke, trip, now) + PhaseEvents(env, UnloadStarted, t, spoke, trip, now)),
                Antenna, t, spoke, carried, now);
  }

  lemma UnloadPhaseStamped(env: Env, e: Effect, t: TrailerId, spoke: Hub, trip: TripId, carried: seq<PackageId>, tick: int, now: int)
    requires Stamped(e.events, now)
    ensures Stamped(UnloadPhase(env, e, t, spoke, trip, carried, tick, now).0.events, now)
  {
    hide UnloadAll;
    var (drawn, held) := HoldBack(env, e, carried);
    UnloadAllStamped(env, drawn, carried, held, spoke, tick, now);
  }

  lemma RideOnStamped(env: Env, e: Effect, t: TrailerId, spoke: Hub, held: Option<PackageId>, tick: int, now: int)
    requires Stamped(e.events, now)
    ensures Stamped(RideOn(env, e, t, spoke, held, tick, now).events, now)
  {
  }

  lemma ConsolidateStamped(env: Env, e: Effect, t: TrailerId, spoke: Hub, tick: int, now: int)
    requires Stamped(e.events, now)
    ensures Stamped(Consolidate(env, e, t, spoke, tick, now).events, now)
  {
    hide SortIds;
  }

  lemma ArriveStamped(env: Env, e: Effect, t: TrailerId, spoke: Hub, trip: TripId, carried: seq<PackageId>, tick: int, now: int)
    requires Stamped(e.events, now)
    ensures Stamped(Arrive(env, e, t, spoke, trip, carried, tick, now).events, now)
  {
    hide Stamped, Dock, UnloadPhase, RideOn, Consolidate, DrawDwell;
    DockStamped(env, e, t, spoke, trip, carried, now);
    var docked := Dock(env, e, t, spoke, trip, carried, now);
    UnloadPhaseStamped(env, docked, t, spoke, trip, carried, tick, now);
    var (unloaded, held) := UnloadPhase(env, docked, t, spoke, trip, carried, tick, now);
    RideOnStamped(env, unloaded, t, spoke, held, tick, now);
    ConsolidateStamped(env, RideOn(env, unloaded, t, spoke, held, tick, now), t, spoke, tick, now);
  }

  /**
   * All events of a firing carry its tick; only a delivery task delivers, one package, and only the
   * stops of a trip that does refuel show a refuelling.
   */
  lemma FireStamped(env: Env, rng: RngStates, w: World, task: SimTask, now: int)
    requires env.Ok()
    ensures var events := Fire(env, rng, w, task, now).events;
            if task.DeliverPackage? then
              |events| <= 1 && forall x :: x in events ==> x.at == now && x.event.PackageDelivered? && x.event.package == task.package
            else if task.MidLegStops? then
              forall x :: x in events ==> x.at == now && !x.event.PackageDelivered?
                                          && (x.event.TruckRefueled? ==> task.didRefuel && x.event.trip == task.trip)
            else Stamped(events, now)
  {
    hide Depart, Arrive, CrossDock, MakePackages, Draw;
    var e := Effect(rng, w, [], []);
    match task
    case CreatePackageBatch(tick) =>
      var (w', count) := BatchSize(env, e.rng.base);
      MakePackagesStamped(env, e.(rng := e.rng.(base := w')), Hos.Max(0, count), now);
    case DepartTrailer(t, spoke, departTick) => DepartStamped(env, e, t, spoke, departTick, now);
    case ArriveTrailer(t, spoke, trip, carried, arriveTick) => ArriveStamped(env, e, t, spoke, trip, carried, arriveTick, now);
    case ArriveConsolidationAtCenter(t, packages, trip) =>
      CrossDockStamped(e.Emit(ArrivalEvents(t, Center, trip, now)), packages, now);
    case _ =>
  }

  // ----- The timeline of a run ---------------------------------------------------------------------

  /** The clock: the tick last fired, or the epoch. */
  function Now(h: History): int { if h.fired == [] then 0 else h.fired[|h.fired| - 1].at }

  ghost predicate InTimeOrder(log: seq<SimEvent>) {
    forall i, j :: 0 <= i < j < |log| ==> log[i].at <= log[j].at
  }

  function DeliveredIn(log: seq<SimEvent>, p: PackageId): nat {
    if log == [] then 0
    else DeliveredIn(log[..|log| - 1], p)
         + One(log[|log| - 1].event.PackageDelivered? && log[|log| - 1].event.package == p)
  }

  ghost predicate Timeline(env: Env, h: History) {
    && InTimeOrder(h.log)
    && (forall x :: x in h.log ==> x.at <= Now(h))
    && (forall x :: x in h.core.queue ==> Now(h) <= x.fireTick)
    && (forall p :: DeliveredIn(h.log, p) <= RetiredIn(env, h.fired, Freight(p)))
  }

  ghost predicate Journeys(h: History) {
    && LogRouted(h.log)
    && WorldRouted(h.log, h.core.world)
    && forall x :: x in h.core.queue ==> TaskRouted(h.log, x.task)
  }

  lemma {:induction false} DeliveredAppend(log: seq<SimEvent>, more: seq<SimEvent>, p: PackageId)
    ensures DeliveredIn(log + more, p) == DeliveredIn(log, p) + DeliveredIn(more, p)
  {
    if more == [] {
      assert log + more == log;
    } else {
      var init := more[..|more| - 1];
      DeliveredAppend(log, init, p);
      assert (log + more)[..|log + more| - 1] == log + init;
    }
  }

  lemma {:induction false} NoDeliveryCounts(events: seq<SimEvent>, p: PackageId)
    requires forall x :: x in events ==> !x.event.PackageDelivered?
    ensures DeliveredIn(events, p) == 0
  {
    if events != [] { NoDeliveryCounts(events[..|events| - 1], p); }
  }

  lemma FireDeliversAtMostItsPackage(env: Env, rng: RngStates, w: World, task: SimTask, now: int, p: PackageId)
    requires env.Ok()
    ensures DeliveredIn(Fire(env, rng, w, task, now).events, p) <= Retired(env, rng, task, Freight(p))
  {
    hide Fire, CountIn;
    FireStamped(env, rng, w, task, now);
    var events := Fire(env, rng, w, task, now).events;
    if !task.DeliverPackage? {
      NoDeliveryCounts(events, p);
    } else if events != [] {
      assert events == [events[0]];
      assert DeliveredIn(events[..0], p) == 0;
      assert events[0] in events;
    }
  }

  /** The log of a step stays in order, and the clock has moved to the task fired. */
  lemma StepKeepsOrder(env: Env, h: History)
    requires env.Ok() && h.core.queue != [] && Timeline(env, h)
    ensures var h' := StepHistory(env, h);
      && InTimeOrder(h'.log) && (forall x :: x in h'.log ==> x.at <= Now(h')) && Now(h) <= Now(h') == h.core.queue[0].fireTick
  {
    hide Fire, ScheduleAll, DeliveredIn, RetiredIn;
    var head := h.core.queue[0];
    FireStamped(env, h.core.rng, h.core.world, head.task, head.fireTick);
    var events := Fire(env, h.core.rng, h.core.world, head.task, head.fireTick).events;
    assert head in h.core.queue && StepHistory(env, h).log == h.log + events;
    assert forall x :: x in events ==> x.at == head.fireTick;
    LaterEventsInOrder(h.log, events, Now(h), head.fireTick);
  }

  lemma LaterEventsInOrder(log: seq<SimEvent>, events: seq<SimEvent>, before: int, now: int)
    requires InTimeOrder(log) && before <= now && (forall x :: x in log ==> x.at <= before)
    requires forall x :: x in events ==> x.at == now
    ensures InTimeOrder(log + events) && forall x :: x in log + events ==> x.at <= now
  {
    forall i, j | 0 <= i < j < |log + events| ensures (log + events)[i].at <= (log + events)[j].at {
      if i < |log| { assert log[i] in log; } else { assert events[i - |log|] in events; }
      if j >= |log| { assert events[j - |log|] in events; }
    }
  }

  lemma StepKeepsQueueAhead(env: Env, h: History)
    requires env.Ok() && h.core.queue != [] && Timely(h.core.queue) && Sorted(h.core.queue)
    ensures forall x :: x in StepHistory(env, h).core.queue ==> h.core.queue[0].fireTick <= x.fireTick
  {
    hide Fire, ScheduleAll;
    var head := h.core.queue[0];
    var e := Fire(env, h.core.rng, h.core.world, head.task, head.fireTick);
    assert head in h.core.queue;
    FireReschedules(env, h.core.rng, h.core.world, head.task, head.fireTick);
    forall x | x in StepHistory(env, h).core.queue ensures head.fireTick <= x.fireTick {
      ScheduleAllMembers(Queued(h.core.queue[1..], h.core.nextSeq), e.spawned, x);
    }
  }

  lemma StepKeepsDeliveries(env: Env, h: History, p: PackageId)
    requires env.Ok() && h.core.queue != [] && DeliveredIn(h.log, p) <= RetiredIn(env, h.fired, Freight(p))
    ensures DeliveredIn(StepHistory(env, h).log, p) <= RetiredIn(env, StepHistory(env, h).fired, Freight(p))
  {
    hide Fire, Retired, ScheduleAll, DeliveredIn;
    var head := h.core.queue[0];
    var e := Fire(env, h.core.rng, h.core.world, head.task, head.fireTick);
    var h' := StepHistory(env, h);
    assert h'.fired[..|h'.fired| - 1] == h.fired;
    DeliveredAppend(h.log, e.events, p);
    FireDeliversAtMostItsPackage(env, h.core.rng, h.core.world, head.task, head.fireTick, p);
  }

  lemma StepKeepsTimeline(env: Env, h: History)
    requires env.Ok() && h.core.queue != [] && Timely(h.core.queue) && Sorted(h.core.queue) && Timeline(env, h)
    ensures Timeline(env, StepHistory(env, h)) && Now(h) <= Now(StepHistory(env, h))
  {
    StepKeepsOrder(env, h);
    StepKeepsQueueAhead(env, h);
    hide StepHistory, InTimeOrder, DeliveredIn, RetiredIn, Now;
    forall p ensures DeliveredIn(StepHistory(env, h).log, p) <= RetiredIn(env, StepHistory(env, h).fired, Freight(p)) {
      StepKeepsDeliveries(env, h, p);
    }
  }

  lemma StepKeepsJourneys(env: Env, h: History)
    requires env.Ok() && h.core.queue != [] && Timely(h.core.queue) && Journeys(h)
    ensures Journeys(StepHistory(env, h))
  {
    hide Fire, LogRouted, WorldRouted, TaskRouted;
    var head := h.core.queue[0];
    var e := Fire(env, h.core.rng, h.core.world, head.task, head.fireTick);
    FireOnCourse(env, h.log, h.core.rng, h.core.world, head.task, head.fireTick);
    forall x | x in StepHistory(env, h).core.queue ensures TaskRouted(h.log + e.events, x.task) {
      ScheduleAllMembers(Queued(h.core.queue[1..], h.core.nextSeq), e.spawned, x);
      if x in h.core.queue[1..] {
        assert x in h.core.queue;
        TaskRoutedGrows(h.log, e.events, x.task);
      }
    }
  }

  // ----- The fresh state ------------------------------------------------------------------------------

  lemma BootstrapEventsStamped(env: Env)
    ensures Stamped(BootstrapEvents(env), 0) && AllNeutral(BootstrapEvents(env))
  {
  }

  /** What the bootstrap schedules: never in the past, and nothing that carries freight. */
  predicate Initial(x: Timed) {
    && 0 <= x.fireTick && (x.task.CreatePackageBatch? || x.task.InductPackage? || x.task.DepartTrailer?)
    && (x.task.DepartTrailer? ==> x.task.spoke != Center)
  }

  lemma RosterDepartureInitial(env: Env, k: nat)
    requires env.Ok()
    ensures Initial(RosterDeparture(env, k))
  {
    assert k / env.spokeCount >= 0;
  }

  lemma InitialScheduleInitial(env: Env)
    requires env.Ok()
    ensures forall i :: 0 <= i < |InitialSchedule(env)| ==> Initial(InitialSchedule(env)[i])
  {
    RosterDeparturesTimely(env, env.TrailerCount());
    hide RosterDepartures, RosterDeparture;
    forall k: nat ensures Initial(RosterDeparture(env, k)) { RosterDepartureInitial(env, k); }
  }

  lemma BootstrapQueue(env: Env, seed: Word)
    requires env.Ok()
    ensures forall x :: x in Bootstrap(env, seed).core.queue ==> Initial(Timed(x.fireTick, x.task))
  {
    hide InitialSchedule, Initial;
    InitialScheduleInitial(env);
    forall x | x in Bootstrap(env, seed).core.queue ensures Initial(Timed(x.fireTick, x.task)) {
      ScheduleAllMembers(Queued([], 0), InitialSchedule(env), x);
    }
  }

  lemma BootstrapTimeline(env: Env, seed: Word)
    requires env.Ok()
    ensures Timeline(env, After(env, seed, 0))
  {
    hide BootstrapEvents, ScheduleAll, InitialSchedule, RetiredIn;
    BootstrapEventsStamped(env);
    BootstrapQueue(env, seed);
    forall p ensures DeliveredIn(BootstrapEvents(env), p) == 0 { NoDeliveryCounts(BootstrapEvents(env), p); }
  }

  lemma BootstrapJourneys(env: Env, seed: Word)
    requires env.Ok()
    ensures Journeys(After(env, seed, 0))
  {
    hide BootstrapEvents, ScheduleAll, InitialSchedule;
    var h := After(env, seed, 0);
    BootstrapEventsStamped(env);
    BootstrapQueue(env, seed);
    LogRoutedAppend([], h.log);
    assert [] + h.log == h.log;
    NothingNamedYet(env, seed);
  }

  lemma NothingNamedYet(env: Env, seed: Word)
    requires env.Ok()
    ensures NamesKept(BootstrapEvents(env), Bootstrap(env, seed).core.world)
  {
    BootstrapEventsStamped(env);
    hide BootstrapEvents, ScheduleAll, InitialSchedule, AllNeutral, NamedIn;
    NeutralNamesNothing(BootstrapEvents(env));
    forall p ensures NamedIn(BootstrapEvents(env), p) == 0 { NamesNothingCounts(BootstrapEvents(env), p); }
  }

  // ----- Main results -----------------------------------------------------------------------------------

  lemma {:induction false} InvariantsHold(env: Env, seed: Word, n: nat)
    requires env.Ok()
    ensures var h := After(env, seed, n);
            Settled(env, h.core) && Books(env, h) && Timeline(env, h) && Journeys(h)
  {
    hide Books, Timeline, Journeys, Bootstrap, StepHistory;
    BooksAlwaysBalance(env, seed, n);
    if n == 0 {
      AfterZero(env, seed);
      BootstrapSettled(env, seed);
      BootstrapTimeline(env, seed);
      BootstrapJourneys(env, seed);
    } else {
      InvariantsHold(env, seed, n - 1);
      var before := After(env, seed, n - 1);
      if before.core.queue != [] {
        StepSettled(env, before.core);
        StepKeepsTimeline(env, before);
        StepKeepsJourneys(env, before);
        AfterStep(env, before);
      }
    }
  }

  lemma AfterZero(env: Env, seed: Word)
    requires env.Ok()
    ensures After(env, seed, 0).core == Bootstrap(env, seed).core
  {
  }

  lemma AfterStep(env: Env, h: History)
    requires env.Ok() && h.core.queue != []
    ensures StepHistory(env, h).core == Step(env, h.core).core
    ensures StepHistory(env, h).log == h.log + Step(env, h.core).events
  {
  }

  /** How often the log brings `p` into the network: an inducted package travels only with consolidation on. */
  function EnteredIn(env: Env, log: seq<SimEvent>, p: PackageId): nat {
    if p.Created? || env.consolidationOn then NamedIn(log, p) else 0
  }

  /**
   * Every package that the log brings into the network is in exactly one place in every reachable
   * state: queued (aboard a trailer under way or waiting for its delivery), in a manifest (for
   * distribution or for consolidation), or finished. Any other package is nowhere.
   */
  lemma ExactlyOnePlace(env: Env, seed: Word, n: nat, p: PackageId)
    requires env.Ok()
    ensures var h := After(env, seed, n);
            var k := Freight(p);
            InQueue(h.core.queue, k)
            + InManifests(h.core.world.pendingBySpoke, env.spokeCount, k)
            + InManifests(h.core.world.pendingAtSpoke, env.spokeCount, k)
            + RetiredIn(env, h.fired, k)
            == EnteredIn(env, h.log, p) == Issued(env, h.core.world, k) <= 1
  {
    BooksAlwaysBalance(env, seed, n);
    InvariantsHold(env, seed, n);
    var h := After(env, seed, n);
    hide InQueue, InManifests, RetiredIn, NamedIn, After, LogRouted, FreightRouted, TaskRouted;
    assert NamedIn(h.log, p) == One(InUse(h.core.world, p));
  }

  /**
   * The journeys of every reachable log. A package is brought into being at most once, so it has one
   * destination. It comes off where a trailer took it: at a spoke only if that is its destination, at
   * the center only if it was inducted elsewhere or was held back at its destination. It is delivered
   * at most once, at its destination, strictly after arriving there, and then is nowhere any more.
   */
  lemma EveryJourneyIsRight(env: Env, seed: Word, n: nat, p: PackageId)
    requires env.Ok()
    ensures var h := After(env, seed, n);
            && LogRouted(h.log)
            && InTimeOrder(h.log)
            && NamedIn(h.log, p) <= 1
            && (forall g, k :: BoundFor(h.log, p, g) && BoundFor(h.log, p, k) ==> g == k)
            && DeliveredIn(h.log, p) <= 1
            && (DeliveredIn(h.log, p) == 1 ==> InQueue(h.core.queue, Freight(p)) == 0 && InWorld(env, h.core.world, Freight(p)) == 0)
  {
    InvariantsHold(env, seed, n);
    ExactlyOnePlace(env, seed, n, p);
    hide LogRouted, InQueue, InManifests, RetiredIn, DeliveredIn, NamedIn, BoundFor, FreightRouted, TaskRouted, After;
    var h := After(env, seed, n);
    forall g, k | BoundFor(h.log, p, g) && BoundFor(h.log, p, k) ensures g == k {
      OneDestination(h.log, h.core.world, p, g, k);
    }
  }

  /**
   * What a routed log says of an unload at the center: the package had left some spoke in a trailer
   * bound for the center, and it was either inducted at that spoke, or brought there by the same
   * trailer, as its destination, and held back.
   */
  lemma UnloadedAtTheCenter(log: seq<SimEvent>, p: PackageId, i: nat) returns (j: nat)
    requires LogRouted(log) && i < |log| && log[i].event == PackageArrivedAtHub(p, Center)
    ensures j < i && Takes(log[j].event, p, Center)
    ensures var e := log[j].event;
            || InductedAt(log[..j], p, e.from)
            || (e.packages == [p] && BoundFor(log[..j], p, e.from) && RodeWith(log[..j], e.trailer, p, e.from))
  {
    hide BoundFor, InductedAt, RodeWith;
    assert Rode(log[..i], p, Center);
    j :| 0 <= j < i && Takes(log[..i][j].event, p, Center);
    var e := log[j].event;
    assert Routed(log[..j], log[j]);
    if !AllInductedAt(log[..j], e.packages, e.from) {
      assert e.packages == [e.packages[0]];
    }
  }

  /** The task about to fire never makes the engine throw, and never moves the clock back. */
  lemma NextTaskIsSafe(env: Env, seed: Word, n: nat)
    requires env.Ok()
    ensures var h := After(env, seed, n);
            h.core.queue != [] ==>
              && Now(h) <= h.core.queue[0].fireTick
              && !Throws(h.core.world, h.core.queue[0].task)
              && forall x :: x in h.core.queue ==> Now(h) <= x.fireTick
  {
    InvariantsHold(env, seed, n);
    var h := After(env, seed, n);
    if h.core.queue != [] {
      var head := h.core.queue[0];
      QueuedIsSound(env, h, head);
      if head.task.ArriveConsolidationAtCenter? {
        OnwardNeverThrows(env, h.core.world.consolidationDest, head.task.packages);
      }
    }
  }

  lemma {:induction false} CountOneIsUnique(queue: seq<Scheduled>, a: Activity)
    requires InQueue(queue, Going(a)) == 1
    ensures exists i :: 0 <= i < |queue| && Recurring(queue[i].task) && ActivityOf(queue[i].task) == a
    ensures forall i, j :: 0 <= i < j < |queue| && Recurring(queue[i].task) && Recurring(queue[j].task) && ActivityOf(queue[i].task) == a
              ==> ActivityOf(queue[j].task) != a
  {
    var head, tail := queue[0], queue[1..];
    CountsOneActivity(head.task, a);
    if InTask(head.task, Going(a)) == 1 {
      forall j | 0 < j < |queue| && Recurring(queue[j].task) ensures ActivityOf(queue[j].task) != a {
        assert queue[j] in tail;
        TaskWithinQueue(tail, queue[j], Going(a));
        CountsOneActivity(queue[j].task, a);
      }
    } else {
      CountOneIsUnique(tail, a);
      var i :| 0 <= i < |tail| && Recurring(tail[i].task) && ActivityOf(tail[i].task) == a;
      assert queue[i + 1] == tail[i];
      forall i, j | 0 <= i < j < |queue| && Recurring(queue[i].task) && Recurring(queue[j].task) && ActivityOf(queue[i].task) == a
        ensures ActivityOf(queue[j].task) != a
      {
        assert i > 0 && tail[i - 1] == queue[i] && tail[j - 1] == queue[j];
      }
    }
  }

  lemma CountsOneActivity(task: SimTask, a: Activity)
    ensures InTask(task, Going(a)) == One(Recurring(task) && ActivityOf(task) == a)
  {
    if task.ArriveTrailer? { CountsFreightOnly(task.carried, Going(a)); }
    if task.ArriveConsolidationAtCenter? { CountsFreightOnly(task.packages, Going(a)); }
  }

  /** The activities a run was started with. */
  predicate Running(env: Env, a: Activity) {
    match a
    case Batches => true
    case Inductions => env.inductionOn
    case Trips(t) => IsId(t, env.TrailerCount())
  }

  /** In every reachable state each activity has exactly one pending task: one departure or arrival per trailer. */
  lemma OnePendingTaskEach(env: Env, seed: Word, n: nat, a: Activity)
    requires env.Ok() && Running(env, a)
    ensures var queue := After(env, seed, n).core.queue;
            && (exists i :: 0 <= i < |queue| && Recurring(queue[i].task) && ActivityOf(queue[i].task) == a)
            && (forall i, j :: 0 <= i < j < |queue| && Recurring(queue[i].task) && Recurring(queue[j].task) && ActivityOf(queue[i].task) == a
                               ==> ActivityOf(queue[j].task) != a)
  {
    BooksAlwaysBalance(env, seed, n);
    var h := After(env, seed, n);
    assert RetiredIn(env, h.fired, Going(a)) == 0 by { ActivitiesNeverRetire(env, h.fired, a); }
    assert InWorld(env, h.core.world, Going(a)) == 0 by {
      ManifestsHoldFreight(h.core.world.pendingBySpoke, env.spokeCount, a);
      ManifestsHoldFreight(h.core.world.pendingAtSpoke, env.spokeCount, a);
    }
    hide InQueue, RetiredIn, InWorld, After;
    CountOneIsUnique(h.core.queue, a);
  }

  lemma {:induction false} ActivitiesNeverRetire(env: Env, fired: seq<Fired>, a: Activity)
    ensures RetiredIn(env, fired, Going(a)) == 0
  {
    if fired != [] {
      ActivitiesNeverRetire(env, fired[..|fired| - 1], a);
      var last := fired[|fired| - 1];
      if last.task.ArriveTrailer? {
        CountsFreightOnly(ComingOff(last.task.carried, HeldBack(env, last.rng, last.task.carried)), Going(a));
      }
    }
  }

  lemma {:induction false} ManifestsHoldFreight(m: map<Hub, seq<PackageId>>, n: nat, a: Activity)
    ensures InManifests(m, n, Going(a)) == 0
  {
    if n > 0 {
      ManifestsHoldFreight(m, n - 1, a);
      CountsFreightOnly(Manifest(m, Spoke(n - 1)), Going(a));
    }
  }

  /** A drain from a reachable state only visits reachable states, so all of the above holds of every run. */
  lemma {:induction false} DrainIsReachable(env: Env, seed: Word, n: nat, horizon: int, h: History) returns (m: nat)
    requires env.Ok() && h == After(env, seed, n) && Timely(h.core.queue)
    ensures n <= m
    ensures After(env, seed, m).core == Drain(env, h.core, horizon).core
    ensures After(env, seed, m).log == h.log + Drain(env, h.core, horizon).events
    decreases QueueTicksLeft(h.core.queue, horizon), |h.core.queue|
  {
    hide StepHistory, Bootstrap, Step, QueueTicksLeft, Timely;
    if h.core.queue == [] || h.core.queue[0].fireTick > horizon {
      assert h.log + [] == h.log;
      m := n;
    } else {
      AfterStep(env, h);
      StepTerminates(env, h.core, horizon);
      var next := StepHistory(env, h);
      assert next == After(env, seed, n + 1);
      hide After;
      m := DrainIsReachable(env, seed, n + 1, horizon, next);
      assert h.log + Step(env, h.core).events + Drain(env, next.core, horizon).events == h.log + Drain(env, h.core, horizon).events;
    }
  }

  /** A whole run from a seed ends in a reachable state whose log is what it emitted. */
  lemma RunIsReachable(env: Env, seed: Word, horizon: nat)
    requires env.Ok()
    ensures var r := RunToHorizon(env, FreshStart(seed), horizon);
            exists n :: After(env, seed, n).log == r.events
                        && Capture(After(env, seed, n).core, seed, horizon) == r.continuation
  {
    BootstrapTimely(env, seed);
    AfterZero(env, seed);
    StartsEmpty(env, seed);
    var n := DrainIsReachable(env, seed, 0, horizon, After(env, seed, 0));
    hide Drain, Bootstrap, After;
    assert After(env, seed, n).log == RunToHorizon(env, FreshStart(seed), horizon).events;
  }

  lemma StartsEmpty(env: Env, seed: Word)
    requires env.Ok()
    ensures After(env, seed, 0).log == Bootstrap(env, seed).events
  {
  }
}
