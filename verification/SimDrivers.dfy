/**
 * The relay pool over whole runs: at all times each registered driver is bound to exactly one trailer or
 * is one of a constant number of spares, and a driver relayed out is not relayed in again before the
 * off-duty reset has passed. Only a departure can touch the pool; every other stage of every handler is
 * shown to leave it alone.
 */
module SimDrivers {
  import opened Generators
  import opened SimTypes
  import opened EventQueues
  import opened Simulation
  import opened SimRuns
  import opened SimFreight
  import opened SimBooks
  import opened SimChunks
  import opened SimTimeline

  function DriverCount(env: Env): nat { env.TrailerCount() + SpareCount(env) }

  ghost predicate Distinct(pool: seq<DriverId>) { forall i, j :: 0 <= i < j < |pool| ==> pool[i] != pool[j] }

  /** One bound driver per trailer, a spare pool of constant size, nobody in two places, nobody lost. */
  ghost predicate Partitioned(env: Env, w: World) {
    && (forall t :: t in w.driverByTrailer <==> IsId(t, env.TrailerCount()))
    && (forall t, u :: t in w.driverByTrailer && u in w.driverByTrailer && t != u ==> w.driverByTrailer[t] != w.driverByTrailer[u])
    && Distinct(w.sparePool) && |w.sparePool| == SpareCount(env)
    && (forall t :: t in w.driverByTrailer ==> w.driverByTrailer[t] !in w.sparePool)
    && (forall d :: IsId(d, DriverCount(env)) <==> d in w.sparePool || exists t :: t in w.driverByTrailer && w.driverByTrailer[t] == d)
  }

  // ----- The swaps of a log ------------------------------------------------------------------

  /** The relay hand-offs of a log, in order. */
  function Swaps(log: seq<SimEvent>): (r: seq<SimEvent>)
    ensures forall i :: 0 <= i < |r| ==> r[i].event.DriverSwappedAtHub? && r[i] in log
  {
    if log == [] then []
    else Swaps(log[..|log| - 1]) + if log[|log| - 1].event.DriverSwappedAtHub? then [log[|log| - 1]] else []
  }

  /** The second hand-off brings back the driver the first one sent to rest. */
  predicate HandsBack(e: DomainEvent, f: DomainEvent) {
    e.DriverSwappedAtHub? && f.DriverSwappedAtHub? && e.outgoing == f.incoming
  }

  /** Whoever is swapped in was swapped out, if ever, at least a reset ago. */
  ghost predicate Rested(swaps: seq<SimEvent>, reset: int) {
    forall i, j :: 0 <= i < j < |swaps| && HandsBack(swaps[i].event, swaps[j].event) ==> swaps[j].at >= swaps[i].at + reset
  }

  /** No spare is free before the reset that began with its last hand-off is over. */
  ghost predicate SparesResting(env: Env, w: World, swaps: seq<SimEvent>) {
    forall d, i :: d in w.sparePool && 0 <= i < |swaps| && swaps[i].event.DriverSwappedAtHub? && swaps[i].event.outgoing == d
      ==> d in w.availableAt && w.availableAt[d] >= swaps[i].at + env.hosConfig.resetOffDutyMin
  }

  ghost predicate Pool(env: Env, w: World, log: seq<SimEvent>) {
    env.hosOn ==>
      && Partitioned(env, w)
      && Rested(Swaps(log), env.hosConfig.resetOffDutyMin)
      && SparesResting(env, w, Swaps(log))
  }

  lemma {:induction false} SwapsAppend(log: seq<SimEvent>, more: seq<SimEvent>)
    ensures Swaps(log + more) == Swaps(log) + Swaps(more)
  {
    if more == [] {
      assert log + more == log;
    } else {
      SwapsAppend(log, more[..|more| - 1]);
      assert (log + more)[..|log + more| - 1] == log + more[..|more| - 1];
    }
  }

  ghost predicate NoSwaps(events: seq<SimEvent>) { forall i :: 0 <= i < |events| ==> !events[i].event.DriverSwappedAtHub? }

  lemma {:induction false} NoSwapsIsEmpty(events: seq<SimEvent>)
    requires NoSwaps(events)
    ensures Swaps(events) == []
  {
    if events != [] { NoSwapsIsEmpty(events[..|events| - 1]); }
  }

  // ----- Stages that leave the drivers alone -----------------------------------------------------

  /** The stage swaps nobody and touches neither bindings, pool nor availability. */
  ghost predicate DriversUntouched(e: Effect, r: Effect) {
    && r.world.driverByTrailer == e.world.driverByTrailer
    && r.world.sparePool == e.world.sparePool
    && r.world.availableAt == e.world.availableAt
    && e.events <= r.events && NoSwaps(r.events[|e.events|..])
  }

  lemma UntouchedThen(e: Effect, m: Effect, r: Effect)
    requires DriversUntouched(e, m) && DriversUntouched(m, r)
    ensures DriversUntouched(e, r)
  {
    var more := r.events[|e.events|..];
    forall i | 0 <= i < |more| ensures !more[i].event.DriverSwappedAtHub? {
      if |e.events| + i < |m.events| {
        assert more[i] == m.events[|e.events|..][i];
      } else {
        assert more[i] == r.events[|m.events|..][|e.events| + i - |m.events|];
      }
    }
  }

  lemma RfidUntouched(env: Env, e: Effect, reader: ReaderType, t: TrailerId, hub: Hub, packages: seq<PackageId>, now: int)
    ensures DriversUntouched(e, RfidEffect(env, e, reader, t, hub, packages, now))
  {
  }

  lemma MakePackageLeavesDrivers(env: Env, e: Effect, now: int)
    requires env.Ok()
    ensures DriversUntouched(e, MakePackage(env, e, now))
  {
    hide PushTo, Draw;
  }

  lemma {:induction false} MakePackagesLeavesDrivers(env: Env, e: Effect, count: nat, now: int)
    requires env.Ok()
    ensures DriversUntouched(e, MakePackages(env, e, count, now))
  {
    hide MakePackage;
    if count > 0 {
      MakePackagesLeavesDrivers(env, e, count - 1, now);
      MakePackageLeavesDrivers(env, MakePackages(env, e, count - 1, now), now);
      UntouchedThen(e, MakePackages(env, e, count - 1, now), MakePackages(env, e, count, now));
    }
  }

  lemma UnloadOneLeavesDrivers(env: Env, e: Effect, p: PackageId, spoke: Hub, arriveTick: int, now: int)
    ensures DriversUntouched(e, UnloadOne(env, e, p, spoke, arriveTick, now))
  {
    hide Draw;
  }

  lemma {:induction false} UnloadAllLeavesDrivers(
    env: Env, e: Effect, carried: seq<PackageId>, held: Option<PackageId>, spoke: Hub, arriveTick: int, now: int)
    ensures DriversUntouched(e, UnloadAll(env, e, carried, held, spoke, arriveTick, now))
  {
    hide UnloadOne;
    if carried != [] {
      var init, p := carried[..|carried| - 1], carried[|carried| - 1];
      UnloadAllLeavesDrivers(env, e, init, held, spoke, arriveTick, now);
      var before := UnloadAll(env, e, init, held, spoke, arriveTick, now);
      UnloadOneLeavesDrivers(env, before, p, spoke, arriveTick, now);
      UntouchedThen(e, before, UnloadOne(env, before, p, spoke, arriveTick, now));
    }
  }

  lemma CrossDockOneLeavesDrivers(e: Effect, p: PackageId, now: int)
    ensures DriversUntouched(e, CrossDockOne(e, p, now))
  {
    hide PushTo;
  }

  lemma {:induction false} CrossDockLeavesDrivers(e: Effect, packages: seq<PackageId>, now: int)
    ensures DriversUntouched(e, CrossDock(e, packages, now))
  {
    hide CrossDockOne;
    if packages != [] {
      CrossDockLeavesDrivers(e, packages[..|packages| - 1], now);
      var before := CrossDock(e, packages[..|packages| - 1], now);
      CrossDockOneLeavesDrivers(before, packages[|packages| - 1], now);
      UntouchedThen(e, before, CrossDockOne(before, packages[|packages| - 1], now));
    }
  }

  lemma DockLeavesDrivers(env: Env, e: Effect, t: TrailerId, spoke: Hub, trip: TripId, carried: seq<PackageId>, now: int)
    ensures DriversUntouched(e, Dock(env, e, t, spoke, trip, carried, now))
  {
    hide RfidEffect;
    var announced := e.Emit(ArrivalEvents(t, spoke, trip, now) + PhaseEvents(env, UnloadStarted, t, spoke, trip, now));
    assert announced.events[|e.events|..] == ArrivalEvents(t, spoke, trip, now) + PhaseEvents(env, UnloadStarted, t, spoke, trip, now);
    RfidUntouched(env, announced, Antenna, t, spoke, carried, now);
    UntouchedThen(e, announced, RfidEffect(env, announced, Antenna, t, spoke, carried, now));
  }

  lemma UnloadPhaseLeavesDrivers(env: Env, e: Effect, t: TrailerId, spoke: Hub, trip: TripId, carried: seq<PackageId>, tick: int, now: int)
    ensures DriversUntouched(e, UnloadPhase(env, e, t, spoke, trip, carried, tick, now).0)
  {
    hide UnloadAll;
    var (drawn, held) := HoldBack(env, e, carried);
    UnloadAllLeavesDrivers(env, drawn, carried, held, spoke, tick, now);
    var unloaded := UnloadAll(env, drawn, carried, held, spoke, tick, now);
    UntouchedThen(e, unloaded, unloaded.Emit(PhaseEvents(env, UnloadCompleted, t, spoke, trip, now)));
  }

  lemma RideOnLeavesDrivers(env: Env, e: Effect, t: TrailerId, spoke: Hub, held: Option<PackageId>, tick: int, now: int)
    ensures DriversUntouched(e, RideOn(env, e, t, spoke, held, tick, now))
  {
    hide RfidEffect;
    if held.Some? {
      var trip := e.world.tripCounter + 1;
      var departed := OnTrailer(t, TrailerDeparted(t, spoke, Center, trip, [held.value]), now);
      var left := e.(world := e.world.(tripCounter := trip)).Emit([departed]);
      assert left.events[|e.events|..] == [departed];
      RfidUntouched(env, left, Portal, t, spoke, [held.value], now);
      UntouchedThen(e, left, RfidEffect(env, left, Portal, t, spoke, [held.value], now));
    }
  }

  lemma ConsolidateLeavesDrivers(env: Env, e: Effect, t: TrailerId, spoke: Hub, tick: int, now: int)
    ensures DriversUntouched(e, Consolidate(env, e, t, spoke, tick, now))
  {
    hide RfidEffect, SortIds;
    if env.consolidationOn {
      var consolidated := SortIds(env, Manifest(e.world.pendingAtSpoke, spoke));
      var trip := e.world.tripCounter + 1;
      var departed := LoadScans(consolidated, spoke, now)
                      + [OnTrailer(t, TrailerDeparted(t, spoke, Center, trip, consolidated), now)];
      var left := e.(world := e.world.(tripCounter := trip, pendingAtSpoke := e.world.pendingAtSpoke[spoke := []])).Emit(departed);
      assert left.events[|e.events|..] == departed;
      assert NoSwaps(departed);
      RfidUntouched(env, left, Portal, t, spoke, consolidated, now);
      UntouchedThen(e, left, RfidEffect(env, left, Portal, t, spoke, consolidated, now));
    }
  }

  lemma ArriveLeavesDrivers(env: Env, e: Effect, t: TrailerId, spoke: Hub, trip: TripId, carried: seq<PackageId>, tick: int, now: int)
    ensures DriversUntouched(e, Arrive(env, e, t, spoke, trip, carried, tick, now))
  {
    hide Dock, UnloadPhase, RideOn, Consolidate, DrawDwell, NoSwaps;
    DockLeavesDrivers(env, e, t, spoke, trip, carried, now);
    var docked := Dock(env, e, t, spoke, trip, carried, now);
    UnloadPhaseLeavesDrivers(env, docked, t, spoke, trip, carried, tick, now);
    var (unloaded, held) := UnloadPhase(env, docked, t, spoke, trip, carried, tick, now);
    RideOnLeavesDrivers(env, unloaded, t, spoke, held, tick, now);
    var ridden := RideOn(env, unloaded, t, spoke, held, tick, now);
    var consolidated := Consolidate(env, ridden, t, spoke, tick, now);
    ConsolidateLeavesDrivers(env, ridden, t, spoke, tick, now);
    UntouchedThen(e, docked, unloaded);
    UntouchedThen(e, unloaded, ridden);
    UntouchedThen(e, ridden, consolidated);
  }

  lemma BatchLeavesDrivers(env: Env, e: Effect, tick: int, now: int)
    requires env.Ok()
    ensures DriversUntouched(e, CreateBatch(env, e, tick, now))
  {
    hide MakePackages;
    var (w', count) := BatchSize(env, e.rng.base);
    MakePackagesLeavesDrivers(env, e.(rng := e.rng.(base := w')), Hos.Max(0, count), now);
  }

  lemma InductLeavesDrivers(env: Env, e: Effect, tick: int, now: int)
    requires env.Ok()
    ensures DriversUntouched(e, Induct(env, e, tick, now))
  {
    hide Draw, PushTo;
  }

  lemma ConsolidationLeavesDrivers(e: Effect, t: TrailerId, packages: seq<PackageId>, trip: TripId, now: int)
    ensures DriversUntouched(e, ArriveConsolidation(e, t, packages, trip, now))
  {
    hide CrossDock;
    var docked := e.Emit(ArrivalEvents(t, Center, trip, now));
    CrossDockLeavesDrivers(docked, packages, now);
    UntouchedThen(e, docked, CrossDock(docked, packages, now));
  }

  /** Every task but a departure leaves the drivers alone. */
  lemma FireLeavesDrivers(env: Env, rng: RngStates, w: World, task: SimTask, now: int)
    requires env.Ok() && !task.DepartTrailer?
    ensures DriversUntouched(Effect(rng, w, [], []), Fire(env, rng, w, task, now))
  {
    hide Arrive, CreateBatch, Induct, ArriveConsolidation;
    var e := Effect(rng, w, [], []);
    match task
    case CreatePackageBatch(tick) => BatchLeavesDrivers(env, e, tick, now);
    case InductPackage(tick) => InductLeavesDrivers(env, e, tick, now);
    case ArriveTrailer(t, spoke, trip, carried, arriveTick) => ArriveLeavesDrivers(env, e, t, spoke, trip, carried, arriveTick, now);
    case ArriveConsolidationAtCenter(t, packages, trip) => ConsolidationLeavesDrivers(e, t, packages, trip, now);
    case _ =>
  }

  // ----- The departure ------------------------------------------------------------------------------

  lemma {:induction false} FirstFreeIsFree(w: World, pool: seq<DriverId>, current: DriverId, now: int)
    ensures var d := FirstFree(w, pool, current, now);
            d.Some? ==> d.value in pool && d.value != current && Free(w, d.value, now)
  {
    if pool != [] { FirstFreeIsFree(w, pool[1..], current, now); }
  }

  lemma {:induction false} RemoveFirstRemoves(pool: seq<DriverId>, d: DriverId)
    requires Distinct(pool) && d in pool
    ensures var r := RemoveFirst(pool, d);
            Distinct(r) && |r| == |pool| - 1 && forall x :: x in r <==> x in pool && x != d
  {
    assert pool == [pool[0]] + pool[1..];
    if pool[0] == d {
      assert forall x :: x in pool[1..] ==> x != d;
    } else {
      RemoveFirstRemoves(pool[1..], d);
      assert pool[0] !in pool[1..] && pool[0] !in RemoveFirst(pool[1..], d);
    }
  }

  /** A relay exchanges the bound driver and one spare. */
  lemma RelayKeepsPartition(env: Env, w: World, t: TrailerId, trip: TripId, relief: DriverId, now: int)
    requires Partitioned(env, w) && t in w.driverByTrailer && relief in w.sparePool
    ensures Partitioned(env, Relay(env, w, t, trip, w.driverByTrailer[t], relief, now).world)
    ensures forall d :: d in Relay(env, w, t, trip, w.driverByTrailer[t], relief, now).world.sparePool
                        <==> (d in w.sparePool || d == w.driverByTrailer[t]) && d != relief
  {
    hide ClockOf, SpareCount, RemoveFirst;
    var current := w.driverByTrailer[t];
    var pool := w.sparePool + [current];
    var w' := Relay(env, w, t, trip, current, relief, now).world;
    assert w'.sparePool == RemoveFirst(pool, relief) && w'.driverByTrailer == w.driverByTrailer[t := relief];
    PoolTakesTurns(w, pool, t, relief);
    forall d ensures IsId(d, DriverCount(env)) <==> d in w'.sparePool || exists u :: u in w'.driverByTrailer && w'.driverByTrailer[u] == d {
      RelayKeepsSomewhere(w.driverByTrailer, w.sparePool, w'.sparePool, t, relief, d);
    }
  }

  /** The driver coming off joins the pool as the relief leaves it. */
  lemma PoolTakesTurns(w: World, pool: seq<DriverId>, t: TrailerId, relief: DriverId)
    requires t in w.driverByTrailer && pool == w.sparePool + [w.driverByTrailer[t]]
    requires Distinct(w.sparePool) && w.driverByTrailer[t] !in w.sparePool && relief in w.sparePool
    ensures var r := RemoveFirst(pool, relief);
      && Distinct(r) && |r| == |w.sparePool|
      && forall d :: d in r <==> (d in w.sparePool || d == w.driverByTrailer[t]) && d != relief
  {
    hide RemoveFirst;
    assert Distinct(pool);
    RemoveFirstRemoves(pool, relief);
  }

  /** A relay puts no driver on the roster and takes none off it. */
  lemma RelayKeepsSomewhere(bound: map<TrailerId, DriverId>, spares: seq<DriverId>, after: seq<DriverId>, t: TrailerId,
                            relief: DriverId, d: DriverId)
    requires t in bound && relief in spares
    requires d in after <==> (d in spares || d == bound[t]) && d != relief
    ensures var next := bound[t := relief];
      (d in spares || exists u :: u in bound && bound[u] == d) <==> (d in after || exists u :: u in next && next[u] == d)
  {
    var next := bound[t := relief];
    if d == relief {
      assert next[t] == d;
    } else if u :| u in bound && bound[u] == d && u != t {
      assert next[u] == d;
    } else {
      assert forall u :: u in next && u != t ==> next[u] == bound[u];
    }
  }

  /** A relay respects the rests: the relief was free, so its own reset was over. */
  lemma RelayKeepsRests(env: Env, w: World, t: TrailerId, trip: TripId, relief: DriverId, swaps: seq<SimEvent>, now: int)
    requires Partitioned(env, w) && t in w.driverByTrailer && relief in w.sparePool && Free(w, relief, now)
    requires Rested(swaps, env.hosConfig.resetOffDutyMin) && SparesResting(env, w, swaps)
    requires forall i :: 0 <= i < |swaps| ==> swaps[i].at <= now
    ensures var r := Relay(env, w, t, trip, w.driverByTrailer[t], relief, now);
            && Rested(swaps + [r.events[0]], env.hosConfig.resetOffDutyMin)
            && SparesResting(env, r.world, swaps + [r.events[0]])
  {
    RelayKeepsPartition(env, w, t, trip, relief, now);
    hide Partitioned, RemoveFirst, ClockOf, Rested, SparesResting;
    var r := Relay(env, w, t, trip, w.driverByTrailer[t], relief, now);
    ReliefHasRested(env, w, swaps, relief, r.events[0], now);
    SparesStayResting(env, w, r.world, swaps, r.events[0], relief, now);
  }

  /** The relief was free, so its own last hand-off is a whole reset ago. */
  lemma ReliefHasRested(env: Env, w: World, swaps: seq<SimEvent>, relief: DriverId, swap: SimEvent, now: int)
    requires Rested(swaps, env.hosConfig.resetOffDutyMin) && SparesResting(env, w, swaps)
    requires relief in w.sparePool && Free(w, relief, now)
    requires swap.event.DriverSwappedAtHub? && swap.event.incoming == relief && swap.at == now
    ensures Rested(swaps + [swap], env.hosConfig.resetOffDutyMin)
  {
  }

  lemma SparesStayResting(env: Env, w: World, w': World, swaps: seq<SimEvent>, swap: SimEvent, relief: DriverId, now: int)
    requires SparesResting(env, w, swaps) && forall i :: 0 <= i < |swaps| ==> swaps[i].at <= now
    requires swap.event.DriverSwappedAtHub? && swap.at == now && swap.event.outgoing != relief
    requires w'.availableAt == w.availableAt[swap.event.outgoing := now + env.hosConfig.resetOffDutyMin][relief := now]
    requires forall d :: d in w'.sparePool <==> (d in w.sparePool || d == swap.event.outgoing) && d != relief
    ensures SparesResting(env, w', swaps + [swap])
  {
  }

  /** The three ways of choosing: keep and stamp, keep for want of a relief, or relay. */
  lemma SelectCases(env: Env, w: World, t: TrailerId, trip: TripId, leg: int, now: int)
    ensures var r := SelectDriver(env, w, t, trip, leg, now);
            var current := DriverOf(w, t);
            || r == Choice(w, [], current)
            || r == Choice(w.(availableAt := w.availableAt[current := now]), [], current)
            || (r.driver in w.sparePool && Free(w, r.driver, now) && r == Relay(env, w, t, trip, current, r.driver, now))
  {
    hide LegalMinutes, FirstFree, ClockOf, Relay;
    FirstFreeIsFree(w, w.sparePool, DriverOf(w, t), now);
    assert forall d :: Relay(env, w, t, trip, DriverOf(w, t), d, now).driver == d by { RelayBinds(env, w, t, trip, now); }
  }

  lemma RelayBinds(env: Env, w: World, t: TrailerId, trip: TripId, now: int)
    ensures forall d :: Relay(env, w, t, trip, DriverOf(w, t), d, now).driver == d
  {
  }

  lemma KeepingKeepsPool(env: Env, w: World, t: TrailerId, log: seq<SimEvent>, now: int)
    requires Pool(env, w, log) && t in w.driverByTrailer
    ensures Pool(env, w.(availableAt := w.availableAt[DriverOf(w, t) := now]), log)
  {
    if env.hosOn {
      CurrentIsNotSpare(env, w, t);
      SamePartition(env, w, w.(availableAt := w.availableAt[DriverOf(w, t) := now]));
    }
  }

  lemma RelayKeepsPool(env: Env, w: World, t: TrailerId, trip: TripId, relief: DriverId, log: seq<SimEvent>, now: int)
    requires env.hosOn && Pool(env, w, log) && t in w.driverByTrailer && relief in w.sparePool && Free(w, relief, now)
    requires forall x :: x in log ==> x.at <= now
    ensures var r := Relay(env, w, t, trip, DriverOf(w, t), relief, now);
            && Pool(env, r.world, log + r.events)
            && r.world.driverByTrailer.Keys == w.driverByTrailer.Keys && DriverOf(r.world, t) == relief
  {
    var r := Relay(env, w, t, trip, DriverOf(w, t), relief, now);
    RelayKeepsPartition(env, w, t, trip, relief, now);
    RelayKeepsRests(env, w, t, trip, relief, Swaps(log), now);
    hide Partitioned, Rested, SparesResting, ClockOf, RemoveFirst;
    SwapsAppend(log, r.events);
    OneSwap(r.events[0], r.events[1]);
    assert r.events == [r.events[0], r.events[1]];
  }

  /** The driver choice of a departure keeps the pool, whichever way it goes. */
  lemma SelectKeepsPool(env: Env, w: World, t: TrailerId, trip: TripId, leg: int, log: seq<SimEvent>, now: int)
    requires env.hosOn && Pool(env, w, log) && t in w.driverByTrailer
    requires forall x :: x in log ==> x.at <= now
    ensures var r := SelectDriver(env, w, t, trip, leg, now);
            && Pool(env, r.world, log + r.events)
            && r.world.driverByTrailer.Keys == w.driverByTrailer.Keys && DriverOf(r.world, t) == r.driver
  {
    hide SelectDriver, Relay, Pool, Free;
    var r := SelectDriver(env, w, t, trip, leg, now);
    SelectCases(env, w, t, trip, leg, now);
    if r.events == [] {
      assert log + [] == log;
      KeepingKeepsPool(env, w, t, log, now);
    }
    if r == Relay(env, w, t, trip, DriverOf(w, t), r.driver, now) && r.driver in w.sparePool && Free(w, r.driver, now) {
      RelayKeepsPool(env, w, t, trip, r.driver, log, now);
    }
  }

  lemma OneSwap(swap: SimEvent, other: SimEvent)
    requires swap.event.DriverSwappedAtHub? && !other.event.DriverSwappedAtHub?
    ensures Swaps([swap, other]) == [swap]
  {
    assert [swap, other][..1] == [swap] && [swap][..0] == [];
    assert Swaps([swap]) == [] + [swap];
  }

  lemma CurrentIsNotSpare(env: Env, w: World, t: TrailerId)
    requires Partitioned(env, w) && t in w.driverByTrailer
    ensures DriverOf(w, t) !in w.sparePool
  {
  }

  lemma SamePartition(env: Env, w: World, w': World)
    requires Partitioned(env, w) && w'.driverByTrailer == w.driverByTrailer && w'.sparePool == w.sparePool
    ensures Partitioned(env, w')
  {
  }

  /** The pool only depends on bindings, spares, the spares' availability and the swaps. */
  lemma SamePool(env: Env, w: World, w': World, log: seq<SimEvent>, more: seq<SimEvent>)
    requires Pool(env, w, log) && NoSwaps(more)
    requires w'.driverByTrailer == w.driverByTrailer && w'.sparePool == w.sparePool
    requires env.hosOn ==> forall d :: d in w.sparePool && d in w.availableAt ==> d in w'.availableAt && w'.availableAt[d] == w.availableAt[d]
    ensures Pool(env, w', log + more)
  {
    hide Partitioned, Rested;
    if env.hosOn {
      SamePartition(env, w, w');
      SwapsAppend(log, more);
      NoSwapsIsEmpty(more);
      assert Swaps(log) + [] == Swaps(log);
    }
  }

  lemma UntouchedKeepsPool(env: Env, past: seq<SimEvent>, e: Effect, r: Effect)
    requires Pool(env, e.world, past + e.events) && DriversUntouched(e, r)
    ensures Pool(env, r.world, past + r.events)
  {
    hide Pool, NoSwaps;
    var more := r.events[|e.events|..];
    assert past + e.events + more == past + r.events;
    assert NoSwaps(more);
    SamePool(env, e.world, r.world, past + e.events, more);
  }

  lemma RollLeavesDrivers(env: Env, e: Effect, t: TrailerId, spoke: Hub, now: int)
    ensures DriversUntouched(e, Roll(env, e, t, spoke, now).0)
  {
    var r := Roll(env, e, t, spoke, now).0;
    var trip := e.world.tripCounter + 1;
    var loaded := Manifest(e.world.pendingBySpoke, spoke);
    assert r.events[|e.events|..] == LoadScans(loaded, Center, now) + PhaseEvents(env, LoadStarted, t, Center, trip, now)
               + [OnTrailer(t, TrailerDeparted(t, Center, spoke, trip, loaded), now)];
  }

  lemma DispatchKeepsPool(env: Env, past: seq<SimEvent>, e: Effect, t: TrailerId, trip: TripId, transit: int, now: int)
    requires Pool(env, e.world, past + e.events) && (env.hosOn ==> t in e.world.driverByTrailer)
    requires forall x :: x in past + e.events ==> x.at <= now
    ensures var r := Dispatch(env, e, t, trip, transit, now);
            && Pool(env, r.world, past + r.events)
            && r.world.driverByTrailer.Keys == e.world.driverByTrailer.Keys
  {
    hide Pool, SelectDriver, ClockOf;
    if env.hosOn {
      SelectKeepsPool(env, e.world, t, trip, transit, past + e.events, now);
      var choice := SelectDriver(env, e.world, t, trip, transit, now);
      var log := past + e.events + choice.events;
      var rest := [OnDriver(choice.driver, DriverAssignedToTrip(choice.driver, trip, t), now),
                   DutyEvent(choice.driver, Driving, TripDispatched, ClockOf(choice.world, choice.driver), now)];
      SamePool(env, choice.world, choice.world, log, rest);
      assert log + rest == past + (e.events + (choice.events + rest));
    }
  }

  lemma {:induction false} LegPausesNoSwaps(env: Env, w: Word, d: DriverId, log: seq<Hos.DutySegment>, clock: Hos.HosClock, now: int)
    ensures NoSwaps(LegPauses(env, w, d, log, clock, now).events)
  {
    if log != [] { LegPausesNoSwaps(env, w, d, log[..|log| - 1], clock, now); }
  }

  lemma DriveOutLeavesDrivers(env: Env, e: Effect, t: TrailerId, transit: nat, now: int)
    requires env.Ok()
    ensures DriversUntouched(e, DriveOut(env, e, t, transit, now).effect)
  {
    hide LegPauses;
    if env.hosOn {
      var d := DriverOf(e.world, t);
      var leg := Hos.DriveLeg(ClockOf(e.world, d), env.hosConfig, transit, now);
      LegPausesNoSwaps(env, e.rng.hos, d, leg.segments, leg.clock, now);
    }
  }

  lemma UnderwayKeepsPool(env: Env, past: seq<SimEvent>, a: Accrual, t: TrailerId, spoke: Hub, trip: TripId, loaded: seq<PackageId>,
                          transit: nat, departTick: int, now: int)
    requires Pool(env, a.effect.world, past + a.effect.events) && (env.hosOn ==> t in a.effect.world.driverByTrailer)
    ensures var r := Underway(env, a, t, spoke, trip, loaded, transit, departTick, now);
            Pool(env, r.world, past + r.events)
  {
    var w := a.effect.world;
    hide AccrueMiles, Partitioned, Rested;
    MilesTouchOnlyTheOdometer(env, w, t, spoke);
    var r := Underway(env, a, t, spoke, trip, loaded, transit, departTick, now);
    if env.hosOn { CurrentIsNotSpare(env, w, t); }
    assert past + r.events == past + a.effect.events + [];
    SamePool(env, w, r.world, past + a.effect.events, []);
  }

  lemma DepartKeepsPool(env: Env, past: seq<SimEvent>, e: Effect, t: TrailerId, spoke: Hub, departTick: int, now: int)
    requires env.Ok() && Pool(env, e.world, past + e.events) && (env.hosOn ==> t in e.world.driverByTrailer)
    requires Stamped(e.events, now) && forall x :: x in past ==> x.at <= now
    ensures var r := Depart(env, e, t, spoke, departTick, now);
            Pool(env, r.world, past + r.events)
  {
    hide Roll, Dispatch, RfidEffect, DriveOut, Underway, Manifest, Pool, NoSwaps;
    RollLeavesDrivers(env, e, t, spoke, now);
    RollStamped(env, e, t, spoke, now);
    var (rolled, transit) := Roll(env, e, t, spoke, now);
    UntouchedKeepsPool(env, past, e, rolled);
    var trip, loaded := e.world.tripCounter + 1, Manifest(e.world.pendingBySpoke, spoke);
    DispatchKeepsPool(env, past, rolled, t, trip, transit, now);
    var dispatched := Dispatch(env, rolled, t, trip, transit, now);
    RfidUntouched(env, dispatched, Portal, t, Center, loaded, now);
    var read := RfidEffect(env, dispatched, Portal, t, Center, loaded, now);
    UntouchedKeepsPool(env, past, dispatched, read);
    DriveOutLeavesDrivers(env, read, t, transit, now);
    var out := DriveOut(env, read, t, transit, now);
    UntouchedKeepsPool(env, past, read, out.effect);
    UnderwayKeepsPool(env, past, out, t, spoke, trip, loaded, transit, departTick, now);
  }

  // ----- Whole runs -----------------------------------------------------------------------------------

  /** A queued departure belongs to a trailer of the roster. */
  lemma QueuedTrailerIsKnown(env: Env, h: History, x: Scheduled)
    requires env.Ok() && Books(env, h) && x in h.core.queue && x.task.DepartTrailer?
    ensures IsId(x.task.trailer, env.TrailerCount())
  {
    hide InQueue, InWorld, RetiredIn;
    TaskWithinQueue(h.core.queue, x, Going(Trips(x.task.trailer)));
  }

  lemma StepKeepsPool(env: Env, h: History)
    requires env.Ok() && h.core.queue != [] && Books(env, h) && Timeline(env, h) && Pool(env, h.core.world, h.log)
    ensures var h' := StepHistory(env, h); Pool(env, h'.core.world, h'.log)
  {
    var head := h.core.queue[0];
    var e := Effect(h.core.rng, h.core.world, [], []);
    assert h.log + [] == h.log;
    if head.task.DepartTrailer? {
      QueuedTrailerIsKnown(env, h, head);
      assert env.hosOn ==> head.task.trailer in h.core.world.driverByTrailer;
      hide Pool, Depart, Books, ScheduleAll, InTimeOrder, RetiredIn;
      DepartKeepsPool(env, h.log, e, head.task.trailer, head.task.spoke, head.task.departTick, head.fireTick);
    } else {
      hide Fire, Pool, Books, Timeline, ScheduleAll, NoSwaps;
      FireLeavesDrivers(env, h.core.rng, h.core.world, head.task, head.fireTick);
      UntouchedKeepsPool(env, h.log, e, Fire(env, h.core.rng, h.core.world, head.task, head.fireTick));
    }
  }

  lemma BootstrapPool(env: Env, seed: Word)
    requires env.Ok()
    ensures Pool(env, FreshWorld(env), BootstrapEvents(env))
  {
    hide WithSpokes, RosterOdometers, SpareCount;
    if env.hosOn {
      NoSwapsAtBootstrap(env);
      NoSwapsIsEmpty(BootstrapEvents(env));
      FreshPartition(env);
    }
  }

  lemma NoSwapsAtBootstrap(env: Env)
    ensures NoSwaps(BootstrapEvents(env))
  {
  }

  lemma FreshPartition(env: Env)
    requires env.Ok() && env.hosOn
    ensures Partitioned(env, FreshWorld(env))
  {
    hide WithSpokes, RosterOdometers, SpareCount;
    var w := FreshWorld(env);
    var n := env.TrailerCount();
    assert forall t :: IsId(t, n) ==> t in w.driverByTrailer && w.driverByTrailer[t] == t;
    forall d ensures IsId(d, DriverCount(env)) <==> d in w.sparePool || exists t :: t in w.driverByTrailer && w.driverByTrailer[t] == d {
      if IsId(d, DriverCount(env)) {
        if d <= n { assert w.driverByTrailer[d] == d; } else { assert w.sparePool[d - n - 1] == d; }
      }
    }
  }

  lemma {:induction false} PoolHolds(env: Env, seed: Word, n: nat)
    requires env.Ok()
    ensures var h := After(env, seed, n); Pool(env, h.core.world, h.log)
  {
    hide Pool, Bootstrap, StepHistory, Books, Timeline, Journeys;
    if n == 0 {
      BootstrapPool(env, seed);
      BootstrapParts(env, seed);
    } else {
      PoolHolds(env, seed, n - 1);
      InvariantsHold(env, seed, n - 1);
      if After(env, seed, n - 1).core.queue != [] { StepKeepsPool(env, After(env, seed, n - 1)); }
    }
  }

  lemma BootstrapParts(env: Env, seed: Word)
    requires env.Ok()
    ensures Bootstrap(env, seed).core.world == FreshWorld(env) && Bootstrap(env, seed).events == BootstrapEvents(env)
  {
  }

  /** At all times the registered drivers are partitioned into one per trailer and a constant pool of spares. */
  lemma DriversArePartitioned(env: Env, seed: Word, n: nat)
    requires env.Ok() && env.hosOn
    ensures Partitioned(env, After(env, seed, n).core.world)
  {
    hide Partitioned, After;
    PoolHolds(env, seed, n);
  }

  /** A driver relayed out comes back on duty only after the off-duty reset has passed. */
  lemma RelayedDriversRest(env: Env, seed: Word, n: nat)
    requires env.Ok() && env.hosOn
    ensures Rested(Swaps(After(env, seed, n).log), env.hosConfig.resetOffDutyMin)
  {
    hide Rested, After, Swaps;
    PoolHolds(env, seed, n);
  }
}
