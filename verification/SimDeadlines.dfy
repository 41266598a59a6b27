/**
 * Promises and how they are kept: the deadline announced when a package is inducted, and whether its delivery
 * is logged as on time. Between the two the deadline travels through the world and a queued task, and nothing
 * on the way changes it.
 */
module SimDeadlines {
  import Hos
  import opened Generators
  import opened SimTypes
  import opened EventQueues
  import opened Simulation
  import opened SimRuns
  import opened SimFreight
  import opened SimBooks
  import opened SimChunks
  import opened SimJourneys
  import opened SimTimeline
  import opened SimLegs
  import opened SimArrivals

  // ----- Reading the log -----------------------------------------------------------------------

  predicate Promises(e: DomainEvent, p: PackageId, deadline: int) {
    e.PackageInducted? && e.package == p && e.slaDeadline == deadline
  }

  ghost predicate Promised(log: seq<SimEvent>, p: PackageId, deadline: int) {
    exists i :: 0 <= i < |log| && Promises(log[i].event, p, deadline)
  }

  /** The deadline is the one announced, or none was. */
  ghost predicate Remembered(log: seq<SimEvent>, p: PackageId, deadline: Option<int>) {
    if deadline.Some? then Promised(log, p, deadline.value) else forall d :: !Promised(log, p, d)
  }

  /** The package came off at the hub between one and twenty minutes before `tick`. */
  ghost predicate CameOffShortlyBefore(log: seq<SimEvent>, p: PackageId, h: Hub, tick: int) {
    exists i :: 0 <= i < |log| && log[i].event == PackageArrivedAtHub(p, h) && 1 <= tick - log[i].at <= 20
  }

  /** How long a class of service adds to the expected travel: an hour, and twice as long for each class below. */
  function Slack(slaClass: nat): int {
    if slaClass == 0 then 60 else 2 * Slack(slaClass - 1)
  }

  /** An induction promises delivery at another spoke after the expected travel and the slack of its class. */
  ghost predicate FairPromise(env: Env, e: SimEvent) {
    e.event.PackageInducted? ==>
      var (from, dest) := (e.event.inductionHub, e.event.dest);
      && env.IsSpoke(from) && env.IsSpoke(dest) && from != dest && e.event.slaClass < 4
      && e.event.slaDeadline == e.at + env.expectedTravel(from, dest) + Slack(e.event.slaClass)
  }

  /** A delivery is on time exactly when no promise about the package was for an earlier minute. */
  ghost predicate Truthful(log: seq<SimEvent>, e: SimEvent) {
    e.event.PackageDelivered? ==>
      && (e.event.onTime <==> forall d :: Promised(log, e.event.package, d) ==> e.at <= d)
      && CameOffShortlyBefore(log, e.event.package, e.event.hub, e.at)
  }

  ghost predicate TaskKept(log: seq<SimEvent>, task: SimTask) {
    task.DeliverPackage? ==>
      Remembered(log, task.package, task.slaDeadline) && CameOffShortlyBefore(log, task.package, task.hub, task.deliverTick)
  }

  ghost predicate Promising(env: Env, h: History) {
    && (forall p :: p in h.core.world.slaDeadline ==> Promised(h.log, p, h.core.world.slaDeadline[p]))
    && (env.outboundOn ==> forall p, d :: Promised(h.log, p, d) ==> p in h.core.world.slaDeadline || DeliveredIn(h.log, p) >= 1)
    && (forall x :: x in h.core.queue ==> TaskKept(h.log, x.task))
    && (forall i :: 0 <= i < |h.log| ==> Truthful(h.log, h.log[i]) && FairPromise(env, h.log[i]))
  }

  // ----- Stages that leave the deadlines alone --------------------------------------------------

  /** The new deliveries: of packages just unloaded at the spoke, each with the deadline on record. */
  ghost predicate OwnDeliveries(env: Env, w: World, before: seq<Timed>, after: seq<Timed>, carried: seq<PackageId>, spoke: Hub, arriveTick: int) {
    && before <= after
    && forall i :: |before| <= i < |after| && after[i].task.DeliverPackage? ==>
         var task := after[i].task;
         && env.outboundOn && task.package in carried && task.hub == spoke && 1 <= task.deliverTick - arriveTick <= 20
         && task.slaDeadline == if task.package in w.slaDeadline then Some(w.slaDeadline[task.package]) else None
  }

  /** The stage keeps the deadlines and schedules no delivery. */
  ghost predicate Undelivering(e: Effect, r: Effect) {
    && r.world.slaDeadline == e.world.slaDeadline && e.spawned <= r.spawned
    && forall i :: |e.spawned| <= i < |r.spawned| ==> !r.spawned[i].task.DeliverPackage?
  }

  lemma {:induction false} MakePackagesUndelivering(env: Env, e: Effect, count: nat, now: int)
    requires env.Ok()
    ensures Undelivering(e, MakePackages(env, e, count, now))
  {
    hide PushTo, Draw;
    if count > 0 { MakePackagesUndelivering(env, e, count - 1, now); }
  }

  lemma BatchUndelivering(env: Env, e: Effect, tick: int, now: int)
    requires env.Ok()
    ensures Undelivering(e, CreateBatch(env, e, tick, now))
  {
    hide MakePackages;
    var (w', count) := BatchSize(env, e.rng.base);
    MakePackagesUndelivering(env, e.(rng := e.rng.(base := w')), Hos.Max(0, count), now);
  }

  lemma UndeliveringThen(e: Effect, m: Effect, r: Effect)
    requires Undelivering(e, m) && Undelivering(m, r)
    ensures Undelivering(e, r)
  {
  }

  lemma RollUndelivering(env: Env, e: Effect, t: TrailerId, spoke: Hub, now: int)
    ensures Undelivering(e, Roll(env, e, t, spoke, now).0)
  {
  }

  lemma DispatchUndelivering(env: Env, e: Effect, t: TrailerId, trip: TripId, transit: int, now: int)
    ensures Undelivering(e, Dispatch(env, e, t, trip, transit, now))
  {
    hide FirstFree, LegalMinutes, RemoveFirst, ClockOf;
  }

  lemma DriveOutUndelivering(env: Env, e: Effect, t: TrailerId, transit: nat, now: int)
    requires env.Ok()
    ensures Undelivering(e, DriveOut(env, e, t, transit, now).effect)
  {
    hide LegPauses, ClockOf;
  }

  lemma UnderwayUndelivering(env: Env, a: Accrual, t: TrailerId, spoke: Hub, trip: TripId, loaded: seq<PackageId>, transit: nat, tick: int, now: int)
    ensures Undelivering(a.effect, Underway(env, a, t, spoke, trip, loaded, transit, tick, now))
  {
    MilesTouchOnlyTheOdometer(env, a.effect.world, t, spoke);
    hide AccrueMiles;
  }

  lemma DepartUndelivering(env: Env, e: Effect, t: TrailerId, spoke: Hub, tick: int, now: int)
    requires env.Ok()
    ensures Undelivering(e, Depart(env, e, t, spoke, tick, now))
  {
    hide Roll, Dispatch, RfidEffect, DriveOut, Underway, Manifest, Undelivering;
    RollUndelivering(env, e, t, spoke, now);
    var (rolled, transit) := Roll(env, e, t, spoke, now);
    var trip, loaded := e.world.tripCounter + 1, Manifest(e.world.pendingBySpoke, spoke);
    var dispatched := Dispatch(env, rolled, t, trip, transit, now);
    DispatchUndelivering(env, rolled, t, trip, transit, now);
    var read := RfidEffect(env, dispatched, Portal, t, Center, loaded, now);
    RfidUndelivering(env, dispatched, Portal, t, Center, loaded, now);
    DriveOutUndelivering(env, read, t, transit, now);
    var a := DriveOut(env, read, t, transit, now);
    UnderwayUndelivering(env, a, t, spoke, trip, loaded, transit, tick, now);
    UndeliveringThen(e, rolled, dispatched);
    UndeliveringThen(e, dispatched, read);
    UndeliveringThen(e, read, a.effect);
    UndeliveringThen(e, a.effect, Underway(env, a, t, spoke, trip, loaded, transit, tick, now));
  }

  lemma RfidUndelivering(env: Env, e: Effect, reader: ReaderType, t: TrailerId, hub: Hub, packages: seq<PackageId>, now: int)
    ensures Undelivering(e, RfidEffect(env, e, reader, t, hub, packages, now))
  {
  }

  lemma {:induction false} CrossDockUndelivering(e: Effect, packages: seq<PackageId>, now: int)
    ensures Undelivering(e, CrossDock(e, packages, now))
  {
    hide PushTo;
    if packages != [] { CrossDockUndelivering(e, packages[..|packages| - 1], now); }
  }

  // ----- Unloading schedules the deliveries ---------------------------------------------------------

  /** The package's arrival at the spoke is among the new events. */
  ghost predicate NewlyOff(e: Effect, r: Effect, p: PackageId, spoke: Hub, now: int) {
    exists k :: |e.events| <= k < |r.events| && r.events[k].event == PackageArrivedAtHub(p, spoke) && r.events[k].at == now
  }

  ghost predicate Unloads(env: Env, e: Effect, r: Effect, carried: seq<PackageId>, spoke: Hub, now: int) {
    && r.world == e.world && e.events <= r.events
    && OwnDeliveries(env, e.world, e.spawned, r.spawned, carried, spoke, now)
    && forall i :: |e.spawned| <= i < |r.spawned| && r.spawned[i].task.DeliverPackage? ==> NewlyOff(e, r, r.spawned[i].task.package, spoke, now)
  }

  lemma UnloadOneUnloads(env: Env, e: Effect, p: PackageId, spoke: Hub, now: int)
    ensures Unloads(env, e, UnloadOne(env, e, p, spoke, now, now), [p], spoke, now)
  {
    var r := UnloadOne(env, e, p, spoke, now, now);
    assert r.events[|e.events| + 1].event == PackageArrivedAtHub(p, spoke);
    hide Draw;
  }

  lemma UnloadsThen(env: Env, e: Effect, m: Effect, r: Effect, front: seq<PackageId>, p: PackageId, spoke: Hub, now: int)
    requires Unloads(env, e, m, front, spoke, now) && Unloads(env, m, r, [p], spoke, now)
    ensures Unloads(env, e, r, front + [p], spoke, now)
  {
    forall i | |e.spawned| <= i < |r.spawned| && r.spawned[i].task.DeliverPackage?
      ensures NewlyOff(e, r, r.spawned[i].task.package, spoke, now) {
      if i < |m.spawned| {
        assert NewlyOff(e, m, m.spawned[i].task.package, spoke, now);
        var k :| |e.events| <= k < |m.events| && m.events[k].event == PackageArrivedAtHub(m.spawned[i].task.package, spoke) && m.events[k].at == now;
        assert r.events[k] == m.events[k];
      } else {
        assert NewlyOff(m, r, r.spawned[i].task.package, spoke, now);
      }
    }
  }

  lemma UnloadsMore(env: Env, e: Effect, r: Effect, front: seq<PackageId>, p: PackageId, spoke: Hub, now: int)
    requires Unloads(env, e, r, front, spoke, now)
    ensures Unloads(env, e, r, front + [p], spoke, now)
  {
    hide NewlyOff;
  }

  lemma {:induction false} UnloadAllUnloads(env: Env, e: Effect, carried: seq<PackageId>, held: Option<PackageId>, spoke: Hub, now: int)
    ensures Unloads(env, e, UnloadAll(env, e, carried, held, spoke, now, now), carried, spoke, now)
  {
    if carried != [] {
      hide UnloadOne, Unloads;
      var front, p := carried[..|carried| - 1], carried[|carried| - 1];
      UnloadAllUnloads(env, e, front, held, spoke, now);
      var before := UnloadAll(env, e, front, held, spoke, now, now);
      UnloadOneUnloads(env, before, p, spoke, now);
      assert front + [p] == carried;
      if held == Some(p) {
        UnloadsMore(env, e, before, front, p, spoke, now);
      } else {
        UnloadsThen(env, e, before, UnloadOne(env, before, p, spoke, now, now), front, p, spoke, now);
      }
    }
  }

  /** What follows the unloading keeps its deliveries and the deadlines, and schedules no more. */
  ghost predicate Delivers(env: Env, w: World, r: Effect, carried: seq<PackageId>, spoke: Hub, now: int) {
    && r.world.slaDeadline == w.slaDeadline
    && OwnDeliveries(env, w, [], r.spawned, carried, spoke, now)
    && forall i :: 0 <= i < |r.spawned| && r.spawned[i].task.DeliverPackage? ==> OffIn(r.events, r.spawned[i].task.package, spoke, now)
  }

  ghost predicate OffIn(events: seq<SimEvent>, p: PackageId, spoke: Hub, now: int) {
    exists k :: 0 <= k < |events| && events[k].event == PackageArrivedAtHub(p, spoke) && events[k].at == now
  }

  lemma DeliversThen(env: Env, w: World, m: Effect, r: Effect, carried: seq<PackageId>, spoke: Hub, now: int)
    requires Delivers(env, w, m, carried, spoke, now) && Undelivering(m, r) && m.events <= r.events
    ensures Delivers(env, w, r, carried, spoke, now)
  {
    forall i | 0 <= i < |r.spawned| && r.spawned[i].task.DeliverPackage? ensures OffIn(r.events, r.spawned[i].task.package, spoke, now) {
      assert i < |m.spawned| && r.spawned[i] == m.spawned[i];
      assert OffIn(m.events, m.spawned[i].task.package, spoke, now);
      var k :| 0 <= k < |m.events| && m.events[k].event == PackageArrivedAtHub(m.spawned[i].task.package, spoke) && m.events[k].at == now;
      assert r.events[k] == m.events[k];
    }
  }

  lemma UnloadPhaseDelivers(env: Env, w: World, e: Effect, t: TrailerId, spoke: Hub, trip: TripId, carried: seq<PackageId>, now: int)
    requires e.world.slaDeadline == w.slaDeadline && e.spawned == []
    ensures Delivers(env, w, UnloadPhase(env, e, t, spoke, trip, carried, now, now).0, carried, spoke, now)
  {
    hide UnloadAll, Unloads;
    var (drawn, held) := HoldBack(env, e, carried);
    UnloadAllUnloads(env, drawn, carried, held, spoke, now);
    var unloaded := UnloadAll(env, drawn, carried, held, spoke, now, now);
    UnloadsDelivers(env, w, drawn, unloaded, carried, spoke, now);
    DeliversThen(env, w, unloaded, UnloadPhase(env, e, t, spoke, trip, carried, now, now).0, carried, spoke, now);
  }

  lemma UnloadsDelivers(env: Env, w: World, e: Effect, r: Effect, carried: seq<PackageId>, spoke: Hub, now: int)
    requires Unloads(env, e, r, carried, spoke, now) && e.spawned == [] && e.world.slaDeadline == w.slaDeadline
    ensures Delivers(env, w, r, carried, spoke, now)
  {
    forall i | 0 <= i < |r.spawned| && r.spawned[i].task.DeliverPackage? ensures OffIn(r.events, r.spawned[i].task.package, spoke, now) {
      assert NewlyOff(e, r, r.spawned[i].task.package, spoke, now);
    }
  }

  lemma RideOnUndelivering(env: Env, e: Effect, t: TrailerId, spoke: Hub, held: Option<PackageId>, tick: int, now: int)
    ensures Undelivering(e, RideOn(env, e, t, spoke, held, tick, now)) && e.events <= RideOn(env, e, t, spoke, held, tick, now).events
  {
  }

  lemma ConsolidateUndelivering(env: Env, e: Effect, t: TrailerId, spoke: Hub, tick: int, now: int)
    ensures Undelivering(e, Consolidate(env, e, t, spoke, tick, now)) && e.events <= Consolidate(env, e, t, spoke, tick, now).events
  {
    hide SortIds;
  }

  lemma ArriveDelivers(env: Env, rng: RngStates, w: World, t: TrailerId, spoke: Hub, trip: TripId, carried: seq<PackageId>, now: int)
    ensures Delivers(env, w, Arrive(env, Effect(rng, w, [], []), t, spoke, trip, carried, now, now), carried, spoke, now)
  {
    hide Dock, UnloadPhase, RideOn, Consolidate, DrawDwell, Delivers;
    var docked := Dock(env, Effect(rng, w, [], []), t, spoke, trip, carried, now);
    DockKeeps(env, rng, w, t, spoke, trip, carried, now);
    UnloadPhaseDelivers(env, w, docked, t, spoke, trip, carried, now);
    var (unloaded, held) := UnloadPhase(env, docked, t, spoke, trip, carried, now, now);
    RideOnUndelivering(env, unloaded, t, spoke, held, now, now);
    var ridden := RideOn(env, unloaded, t, spoke, held, now, now);
    DeliversThen(env, w, unloaded, ridden, carried, spoke, now);
    ConsolidateUndelivering(env, ridden, t, spoke, now, now);
    var consolidated := Consolidate(env, ridden, t, spoke, now, now);
    DeliversThen(env, w, ridden, consolidated, carried, spoke, now);
    DeliversThen(env, w, consolidated, TurnAround(env, consolidated, t, spoke, now), carried, spoke, now);
  }

  lemma DockKeeps(env: Env, rng: RngStates, w: World, t: TrailerId, spoke: Hub, trip: TripId, carried: seq<PackageId>, now: int)
    ensures var r := Dock(env, Effect(rng, w, [], []), t, spoke, trip, carried, now); r.world == w && r.spawned == []
  {
  }

  // ----- Longer logs --------------------------------------------------------------------------------

  /** No promise about `p` is added. */
  ghost predicate NoPromise(more: seq<SimEvent>, p: PackageId) {
    forall i :: 0 <= i < |more| ==> !(more[i].event.PackageInducted? && more[i].event.package == p)
  }

  lemma PromisedIsSame(log: seq<SimEvent>, more: seq<SimEvent>, p: PackageId, d: int)
    requires NoPromise(more, p)
    ensures Promised(log + more, p, d) <==> Promised(log, p, d)
  {
    if Promised(log, p, d) {
      var i :| 0 <= i < |log| && Promises(log[i].event, p, d);
      assert (log + more)[i] == log[i];
    }
    if Promised(log + more, p, d) {
      var i :| 0 <= i < |log + more| && Promises((log + more)[i].event, p, d);
      assert i >= |log| ==> (log + more)[i] == more[i - |log|];
    }
  }

  lemma PromisedSomewhere(log: seq<SimEvent>, more: seq<SimEvent>, p: PackageId, d: int)
    requires Promised(log + more, p, d)
    ensures Promised(log, p, d) || Promised(more, p, d)
  {
    var i :| 0 <= i < |log + more| && Promises((log + more)[i].event, p, d);
    if i < |log| { assert log[i] == (log + more)[i]; } else { assert more[i - |log|] == (log + more)[i]; }
  }

  lemma CameOffGrows(log: seq<SimEvent>, more: seq<SimEvent>, p: PackageId, h: Hub, tick: int)
    requires CameOffShortlyBefore(log, p, h, tick)
    ensures CameOffShortlyBefore(log + more, p, h, tick)
  {
    var i :| 0 <= i < |log| && log[i].event == PackageArrivedAtHub(p, h) && 1 <= tick - log[i].at <= 20;
    assert (log + more)[i] == log[i];
  }

  lemma TaskKeptGrows(log: seq<SimEvent>, more: seq<SimEvent>, task: SimTask)
    requires TaskKept(log, task) && (task.DeliverPackage? ==> NoPromise(more, task.package))
    ensures TaskKept(log + more, task)
  {
    if task.DeliverPackage? {
      hide Promised, CameOffShortlyBefore, NoPromise;
      forall d ensures Promised(log + more, task.package, d) <==> Promised(log, task.package, d) { PromisedIsSame(log, more, task.package, d); }
      CameOffGrows(log, more, task.package, task.hub, task.deliverTick);
    }
  }

  lemma TruthfulGrows(log: seq<SimEvent>, more: seq<SimEvent>, e: SimEvent)
    requires Truthful(log, e) && (e.event.PackageDelivered? ==> NoPromise(more, e.event.package))
    ensures Truthful(log + more, e)
  {
    if e.event.PackageDelivered? {
      hide Promised, CameOffShortlyBefore, NoPromise;
      forall d ensures Promised(log + more, e.event.package, d) <==> Promised(log, e.event.package, d) {
        PromisedIsSame(log, more, e.event.package, d);
      }
      CameOffGrows(log, more, e.event.package, e.event.hub, e.at);
    }
  }

  /** One promise at most is made about a package. */
  lemma PromisedOnce(log: seq<SimEvent>, w: World, p: PackageId, d: int, e: int)
    requires NamesKept(log, w) && Promised(log, p, d) && Promised(log, p, e)
    ensures d == e
  {
    var i :| 0 <= i < |log| && Promises(log[i].event, p, d);
    var j :| 0 <= j < |log| && Promises(log[j].event, p, e);
    if i < j { NamedTwice(log, p, i, j); }
    if j < i { NamedTwice(log, p, j, i); }
  }

  /** An id not yet handed out is in no promise, bound nowhere. */
  lemma FreshIsUnknown(log: seq<SimEvent>, w: World, p: PackageId)
    requires NamesKept(log, w) && !InUse(w, p)
    ensures NoPromise(log, p) && forall h :: !BoundFor(log, p, h)
  {
    hide NamedIn;
    assert NamedIn(log, p) == 0;
    forall i | 0 <= i < |log| ensures !(Announces(log[i].event) && log[i].event.package == p) {
      if Announces(log[i].event) && log[i].event.package == p { NamedOnceAtLeast(log, p, i); }
    }
  }

  // ----- One firing -----------------------------------------------------------------------------------

  /** What a firing does to deadlines, promises and deliveries, when it is neither an induction nor a delivery. */
  ghost predicate Quiet(env: Env, w: World, r: Effect, task: SimTask, now: int) {
    && r.world.slaDeadline == w.slaDeadline
    && (forall i :: 0 <= i < |r.events| ==> !r.events[i].event.PackageInducted? && !r.events[i].event.PackageDelivered?)
    && (if task.ArriveTrailer? then Delivers(env, w, r, task.carried, task.spoke, now)
        else forall i :: 0 <= i < |r.spawned| ==> !r.spawned[i].task.DeliverPackage?)
  }

  lemma FireQuiet(env: Env, rng: RngStates, w: World, task: SimTask, now: int)
    requires env.Ok() && OwnTick(task, now) && !task.InductPackage? && !task.DeliverPackage?
    ensures Quiet(env, w, Fire(env, rng, w, task, now), task, now)
  {
    hide Delivers, Fire;
    var r := Fire(env, rng, w, task, now);
    forall i | 0 <= i < |r.events| ensures !r.events[i].event.PackageInducted? && !r.events[i].event.PackageDelivered? {
      FireLogs(env, rng, w, task, now, i);
    }
    FireUndelivering(env, rng, w, task, now);
    if task.ArriveTrailer? {
      ArriveDelivers(env, rng, w, task.trailer, task.spoke, task.trip, task.carried, now);
      FireArrives(env, rng, w, task, now);
      DeliversKeeps(env, w, r, task.carried, task.spoke, now);
    }
  }

  lemma DeliversKeeps(env: Env, w: World, r: Effect, carried: seq<PackageId>, spoke: Hub, now: int)
    requires Delivers(env, w, r, carried, spoke, now)
    ensures r.world.slaDeadline == w.slaDeadline
  {
  }

  lemma FireArrives(env: Env, rng: RngStates, w: World, task: SimTask, now: int)
    requires env.Ok() && task.ArriveTrailer? && OwnTick(task, now)
    ensures Fire(env, rng, w, task, now) == Arrive(env, Effect(rng, w, [], []), task.trailer, task.spoke, task.trip, task.carried, now, now)
  {
    hide Arrive;
  }

  lemma FireUndelivering(env: Env, rng: RngStates, w: World, task: SimTask, now: int)
    requires env.Ok()
    ensures !task.InductPackage? && !task.DeliverPackage? && !task.ArriveTrailer? ==>
      Undelivering(Effect(rng, w, [], []), Fire(env, rng, w, task, now))
  {
    var e := Effect(rng, w, [], []);
    hide CreateBatch, Depart, Arrive, Induct, Deliver, CrossDock, RefuelEvent;
    match task
    case CreatePackageBatch(tick) => BatchUndelivering(env, e, tick, now);
    case DepartTrailer(t, spoke, tick) => DepartUndelivering(env, e, t, spoke, tick, now);
    case ArriveConsolidationAtCenter(t, packages, trip) =>
      CrossDockUndelivering(e.Emit(ArrivalEvents(t, Center, trip, now)), packages, now);
    case _ =>
  }

  /** The one event of an induction, and the deadline it leaves on record. */
  ghost predicate Inducted(env: Env, w: World, r: Effect, now: int) {
    && (forall i :: 0 <= i < |r.spawned| ==> !r.spawned[i].task.DeliverPackage?)
    && if r.events == [] then r.world.slaDeadline == w.slaDeadline
       else
         && |r.events| == 1 && r.events[0].at == now && r.events[0].event.PackageInducted?
         && var e := r.events[0].event;
         && e.package == External(w.inductionCounter + 1) && FairPromise(env, r.events[0])
         && r.world.slaDeadline == if env.outboundOn then w.slaDeadline[e.package := e.slaDeadline] else w.slaDeadline
  }

  lemma SlackIsBuffer(slaClass: nat)
    requires slaClass < 4
    ensures Slack(slaClass) == SlaBuffer(slaClass)
  {
    assert Slack(0) == 60 && Slack(1) == 120 && Slack(2) == 240 && Slack(3) == 480;
  }

  lemma FireInducts(env: Env, rng: RngStates, w: World, tick: int, now: int)
    requires env.Ok()
    ensures Inducted(env, w, Fire(env, rng, w, InductPackage(tick), now), now)
  {
    hide Slack, SlaBuffer, PushTo;
    forall k: nat | k < 4 ensures Slack(k) == SlaBuffer(k) { SlackIsBuffer(k); }
  }

  lemma FireDelivers(env: Env, rng: RngStates, w: World, task: SimTask, now: int)
    requires env.Ok() && task.DeliverPackage?
    ensures var r := Fire(env, rng, w, task, now);
      && r.spawned == []
      && (if r.events == [] then r.world.slaDeadline == w.slaDeadline
          else r.world.slaDeadline == w.slaDeadline - {task.package}
               && r.events == [OnPackage(task.package, PackageDelivered(task.package, task.hub, now, task.slaDeadline.None? || now <= task.slaDeadline.value), now)])
  {
  }

  // ----- One step keeps every promise on record --------------------------------------------------------

  /** What is queued has not been delivered. */
  ghost predicate Undelivered(h: History) {
    forall x, p :: x in h.core.queue && InTask(x.task, Freight(p)) > 0 ==> DeliveredIn(h.log, p) == 0
  }

  lemma NoneOf(more: seq<SimEvent>, p: PackageId)
    requires forall i :: 0 <= i < |more| ==> !more[i].event.PackageInducted?
    ensures NoPromise(more, p)
  {
  }

  lemma DeadlinesGrow(env: Env, log: seq<SimEvent>, more: seq<SimEvent>, w: World)
    requires forall i :: 0 <= i < |more| ==> !more[i].event.PackageInducted?
    requires forall p :: p in w.slaDeadline ==> Promised(log, p, w.slaDeadline[p])
    requires env.outboundOn ==> forall p, d :: Promised(log, p, d) ==> p in w.slaDeadline || DeliveredIn(log, p) >= 1
    ensures forall p :: p in w.slaDeadline ==> Promised(log + more, p, w.slaDeadline[p])
    ensures env.outboundOn ==> forall p, d :: Promised(log + more, p, d) ==> p in w.slaDeadline || DeliveredIn(log + more, p) >= 1
  {
    hide Promised, DeliveredIn, NoPromise;
    forall p, d ensures Promised(log + more, p, d) <==> Promised(log, p, d) {
      NoneOf(more, p);
      PromisedIsSame(log, more, p, d);
    }
    forall p ensures DeliveredIn(log, p) <= DeliveredIn(log + more, p) { DeliveredAppend(log, more, p); }
  }

  /** A delivery just scheduled remembers the promise, whether one was made or not. */
  lemma NewTaskKept(env: Env, log: seq<SimEvent>, more: seq<SimEvent>, w: World, task: SimTask, now: int)
    requires task.DeliverPackage? && env.outboundOn && 1 <= task.deliverTick - now <= 20
    requires task.slaDeadline == if task.package in w.slaDeadline then Some(w.slaDeadline[task.package]) else None
    requires forall p :: p in w.slaDeadline ==> Promised(log, p, w.slaDeadline[p])
    requires forall p, d :: Promised(log, p, d) ==> p in w.slaDeadline || DeliveredIn(log, p) >= 1
    requires DeliveredIn(log, task.package) == 0 && NoPromise(more, task.package) && OffIn(more, task.package, task.hub, now)
    ensures TaskKept(log + more, task)
  {
    hide Promised, DeliveredIn, NoPromise;
    forall d ensures Promised(log + more, task.package, d) <==> Promised(log, task.package, d) { PromisedIsSame(log, more, task.package, d); }
    var k :| 0 <= k < |more| && more[k].event == PackageArrivedAtHub(task.package, task.hub) && more[k].at == now;
    assert (log + more)[|log| + k] == more[k];
  }

  lemma LogStaysTruthful(env: Env, log: seq<SimEvent>, more: seq<SimEvent>)
    requires forall i :: 0 <= i < |log| ==> Truthful(log, log[i]) && FairPromise(env, log[i])
    requires forall i :: 0 <= i < |log| && log[i].event.PackageDelivered? ==> NoPromise(more, log[i].event.package)
    requires forall i :: 0 <= i < |more| ==> Truthful(log + more, more[i]) && FairPromise(env, more[i])
    ensures forall i :: 0 <= i < |log + more| ==> Truthful(log + more, (log + more)[i]) && FairPromise(env, (log + more)[i])
  {
    hide Truthful, FairPromise, NoPromise;
    forall i | 0 <= i < |log + more| ensures Truthful(log + more, (log + more)[i]) && FairPromise(env, (log + more)[i]) {
      if i < |log| { TruthfulGrows(log, more, log[i]); } else { assert (log + more)[i] == more[i - |log|]; }
    }
  }

  lemma CarriedCounts(carried: seq<PackageId>, task: SimTask, p: PackageId)
    requires task.ArriveTrailer? && task.carried == carried && p in carried
    ensures InTask(task, Freight(p)) > 0
  {
    MemberCounts(carried, p);
  }

  lemma StepQuiet(env: Env, h: History)
    requires env.Ok() && h.core.queue != [] && Promising(env, h) && Undelivered(h)
    requires var head := h.core.queue[0]; OwnTick(head.task, head.fireTick) && !head.task.InductPackage? && !head.task.DeliverPackage?
    ensures Promising(env, StepHistory(env, h))
  {
    hide Fire, ScheduleAll, Promised, DeliveredIn, InTask, TaskKept, Truthful, FairPromise, NoPromise, OffIn;
    var head := h.core.queue[0];
    var r := Fire(env, h.core.rng, h.core.world, head.task, head.fireTick);
    FireQuiet(env, h.core.rng, h.core.world, head.task, head.fireTick);
    DeadlinesGrow(env, h.log, r.events, h.core.world);
    forall p ensures NoPromise(r.events, p) { NoneOf(r.events, p); }
    forall i | 0 <= i < |r.events| ensures Truthful(h.log + r.events, r.events[i]) && FairPromise(env, r.events[i]) { NeitherSort(env, h.log + r.events, r.events[i]); }
    LogStaysTruthful(env, h.log, r.events);
    forall x | x in StepHistory(env, h).core.queue ensures TaskKept(h.log + r.events, x.task) {
      ScheduleAllMembers(Queued(h.core.queue[1..], h.core.nextSeq), r.spawned, x);
      if x in h.core.queue[1..] {
        assert x in h.core.queue;
        TaskKeptGrows(h.log, r.events, x.task);
      } else {
        var k :| 0 <= k < |r.spawned| && r.spawned[k] == Timed(x.fireTick, x.task);
        if x.task.DeliverPackage? {
          assert head in h.core.queue;
          CarriedCounts(head.task.carried, head.task, x.task.package);
          NewTaskKept(env, h.log, r.events, h.core.world, x.task, head.fireTick);
        } else {
          NoDelivery(h.log + r.events, x.task);
        }
      }
    }
  }

  lemma NeitherSort(env: Env, log: seq<SimEvent>, e: SimEvent)
    requires !e.event.PackageInducted? && !e.event.PackageDelivered?
    ensures Truthful(log, e) && FairPromise(env, e)
  {
  }

  lemma NoDelivery(log: seq<SimEvent>, task: SimTask)
    requires !task.DeliverPackage?
    ensures TaskKept(log, task)
  {
  }

  /** Everything delivered or to be delivered was named in the log. */
  lemma StrangerToTasks(h: History, p: PackageId)
    requires Journeys(h) && !InUse(h.core.world, p)
    ensures NoPromise(h.log, p)
    ensures forall x :: x in h.core.queue && x.task.DeliverPackage? ==> x.task.package != p
    ensures forall i :: 0 <= i < |h.log| && h.log[i].event.PackageDelivered? ==> h.log[i].event.package != p
  {
    FreshIsUnknown(h.log, h.core.world, p);
    hide NamedIn, NoPromise, ArrivedBefore, FreightRouted;
    forall x | x in h.core.queue && x.task.DeliverPackage? ensures x.task.package != p {
      assert TaskRouted(h.log, x.task);
    }
    forall i | 0 <= i < |h.log| && h.log[i].event.PackageDelivered? ensures h.log[i].event.package != p {
      assert Routed(h.log[..i], h.log[i]);
      var e := h.log[i].event;
      BoundForGrows(h.log[..i], h.log[i..], e.package, e.hub);
      assert h.log[..i] + h.log[i..] == h.log;
    }
  }

  lemma StepInducts(env: Env, h: History)
    requires env.Ok() && h.core.queue != [] && Promising(env, h) && Journeys(h) && h.core.queue[0].task.InductPackage?
    ensures Promising(env, StepHistory(env, h))
  {
    hide Fire, ScheduleAll, Promised, DeliveredIn, TaskKept, Truthful, FairPromise, NoPromise, LogRouted, WorldRouted, TaskRouted;
    var head := h.core.queue[0];
    var r := Fire(env, h.core.rng, h.core.world, head.task, head.fireTick);
    var p := External(h.core.world.inductionCounter + 1);
    FireInducts(env, h.core.rng, h.core.world, head.task.tick, head.fireTick);
    StrangerToTasks(h, p);
    forall q | q != p ensures NoPromise(r.events, q) { OnlyAbout(r.events, p, q); }
    DeadlinesWithOneMore(env, h.log, r, h.core.world, p);
    forall i | 0 <= i < |r.events| ensures Truthful(h.log + r.events, r.events[i]) && FairPromise(env, r.events[i]) { NoDeliveryIsTruthful(h.log + r.events, r.events[i]); }
    LogStaysTruthful(env, h.log, r.events);
    forall x | x in StepHistory(env, h).core.queue ensures TaskKept(h.log + r.events, x.task) {
      ScheduleAllMembers(Queued(h.core.queue[1..], h.core.nextSeq), r.spawned, x);
      if x in h.core.queue[1..] {
        assert x in h.core.queue;
        TaskKeptGrows(h.log, r.events, x.task);
      } else {
        NoDelivery(h.log + r.events, x.task);
      }
    }
  }

  lemma OnlyAbout(events: seq<SimEvent>, p: PackageId, q: PackageId)
    requires forall i :: 0 <= i < |events| ==> events[i].event.PackageInducted? && events[i].event.package == p
    requires p != q
    ensures NoPromise(events, q)
  {
  }

  lemma NoDeliveryIsTruthful(log: seq<SimEvent>, e: SimEvent)
    requires !e.event.PackageDelivered?
    ensures Truthful(log, e)
  {
  }

  /** A fresh package's promise goes on record with it. */
  lemma DeadlinesWithOneMore(env: Env, log: seq<SimEvent>, r: Effect, w: World, p: PackageId)
    requires Inducted(env, w, r, if r.events == [] then 0 else r.events[0].at) && p == External(w.inductionCounter + 1)
    requires NoPromise(log, p)
    requires forall q :: q in w.slaDeadline ==> Promised(log, q, w.slaDeadline[q])
    requires env.outboundOn ==> forall q, d :: Promised(log, q, d) ==> q in w.slaDeadline || DeliveredIn(log, q) >= 1
    requires forall q :: q != p ==> NoPromise(r.events, q)
    ensures forall q :: q in r.world.slaDeadline ==> Promised(log + r.events, q, r.world.slaDeadline[q])
    ensures env.outboundOn ==> forall q, d :: Promised(log + r.events, q, d) ==> q in r.world.slaDeadline || DeliveredIn(log + r.events, q) >= 1
  {
    hide FairPromise, DeliveredIn;
    forall q ensures DeliveredIn(log, q) <= DeliveredIn(log + r.events, q) { DeliveredAppend(log, r.events, q); }
    forall q, d | q != p ensures Promised(log + r.events, q, d) <==> Promised(log, q, d) { PromisedIsSame(log, r.events, q, d); }
    forall d ensures !Promised(log, p, d) {}
    if r.events == [] {
      assert log + r.events == log;
    } else {
      var e := r.events[0].event;
      assert (log + r.events)[|log|] == r.events[0];
      assert Promised(log + r.events, p, e.slaDeadline);
      forall d | Promised(log + r.events, p, d) ensures d == e.slaDeadline { PromisedSomewhere(log, r.events, p, d); }
    }
  }

  lemma StepDelivers(env: Env, h: History)
    requires env.Ok() && h.core.queue != [] && Promising(env, h) && Journeys(h)
    requires h.core.queue[0].task.DeliverPackage? && OwnTick(h.core.queue[0].task, h.core.queue[0].fireTick)
    ensures Promising(env, StepHistory(env, h))
  {
    hide Fire, ScheduleAll, Promised, DeliveredIn, TaskKept, Truthful, FairPromise, NoPromise, LogRouted, FreightRouted, NamesKept, TaskRouted;
    var head := h.core.queue[0];
    var r := Fire(env, h.core.rng, h.core.world, head.task, head.fireTick);
    FireDelivers(env, h.core.rng, h.core.world, head.task, head.fireTick);
    forall q ensures NoPromise(r.events, q) { NoneOf(r.events, q); }
    assert head in h.core.queue;
    if r.events == [] {
      assert h.log + r.events == h.log;
    } else {
      DeadlinesWithOneLess(env, h.log, r.events, h.core.world, head.task.package);
      forall d, e | Promised(h.log, head.task.package, d) && Promised(h.log, head.task.package, e) ensures d == e {
        PromisedOnce(h.log, h.core.world, head.task.package, d, e);
      }
      DeliveryIsTruthful(env, h.log, r.events, head.task);
    }
    LogStaysTruthful(env, h.log, r.events);
    forall x | x in StepHistory(env, h).core.queue ensures TaskKept(h.log + r.events, x.task) {
      ScheduleAllMembers(Queued(h.core.queue[1..], h.core.nextSeq), r.spawned, x);
      assert x in h.core.queue;
      TaskKeptGrows(h.log, r.events, x.task);
    }
  }

  lemma DeadlinesWithOneLess(env: Env, log: seq<SimEvent>, more: seq<SimEvent>, w: World, p: PackageId)
    requires forall q :: NoPromise(more, q)
    requires |more| == 1 && more[0].event.PackageDelivered? && more[0].event.package == p
    requires forall q :: q in w.slaDeadline ==> Promised(log, q, w.slaDeadline[q])
    requires env.outboundOn ==> forall q, d :: Promised(log, q, d) ==> q in w.slaDeadline || DeliveredIn(log, q) >= 1
    ensures forall q :: q in w.slaDeadline - {p} ==> Promised(log + more, q, w.slaDeadline[q])
    ensures env.outboundOn ==> forall q, d :: Promised(log + more, q, d) ==> q in w.slaDeadline - {p} || DeliveredIn(log + more, q) >= 1
  {
    assert DeliveredIn(more, p) == 1 by { assert more == [more[0]]; assert DeliveredIn(more[..0], p) == 0; }
    hide Promised, DeliveredIn, NoPromise;
    forall q, d ensures Promised(log + more, q, d) <==> Promised(log, q, d) { PromisedIsSame(log, more, q, d); }
    forall q ensures DeliveredIn(log + more, q) == DeliveredIn(log, q) + DeliveredIn(more, q) { DeliveredAppend(log, more, q); }
  }

  lemma DeliveryIsTruthful(env: Env, log: seq<SimEvent>, more: seq<SimEvent>, task: SimTask)
    requires task.DeliverPackage? && TaskKept(log, task) && NoPromise(more, task.package)
    requires more == [OnPackage(task.package, PackageDelivered(task.package, task.hub, task.deliverTick,
                                                               task.slaDeadline.None? || task.deliverTick <= task.slaDeadline.value), task.deliverTick)]
    requires forall d, e :: Promised(log, task.package, d) && Promised(log, task.package, e) ==> d == e
    ensures Truthful(log + more, more[0]) && FairPromise(env, more[0])
  {
    hide Promised, NoPromise, CameOffShortlyBefore;
    forall d ensures Promised(log + more, task.package, d) <==> Promised(log, task.package, d) { PromisedIsSame(log, more, task.package, d); }
    CameOffGrows(log, more, task.package, task.hub, task.deliverTick);
  }

  // ----- Whole runs ---------------------------------------------------------------------------------------

  lemma QueuedIsUndelivered(env: Env, seed: Word, n: nat)
    requires env.Ok()
    ensures Undelivered(After(env, seed, n))
  {
    hide After, InTask, DeliveredIn, LogRouted, NamedIn, InWorld, InQueue, InTimeOrder;
    var h := After(env, seed, n);
    forall x, p | x in h.core.queue && InTask(x.task, Freight(p)) > 0 ensures DeliveredIn(h.log, p) == 0 {
      EveryJourneyIsRight(env, seed, n, p);
      TaskWithinQueue(h.core.queue, x, Freight(p));
    }
  }

  lemma NothingPromisedYet(env: Env, seed: Word)
    requires env.Ok()
    ensures Promising(env, After(env, seed, 0))
  {
    BootstrapQueue(env, seed);
    QuietBootstrap(env);
    NoDeadlineYet(env, seed);
    hide Bootstrap, BootstrapEvents, Promising;
    NothingPromised(env, After(env, seed, 0));
  }

  lemma NoDeadlineYet(env: Env, seed: Word)
    requires env.Ok()
    ensures Bootstrap(env, seed).core.world.slaDeadline == map[] && Bootstrap(env, seed).events == BootstrapEvents(env)
  {
  }

  lemma NothingPromised(env: Env, h: History)
    requires forall i :: 0 <= i < |h.log| ==> !h.log[i].event.PackageInducted? && !h.log[i].event.PackageDelivered?
    requires h.core.world.slaDeadline == map[] && forall x :: x in h.core.queue ==> !x.task.DeliverPackage?
    ensures Promising(env, h)
  {
    hide DeliveredIn;
    forall p, d ensures !Promised(h.log, p, d) {}
  }

  lemma QuietBootstrap(env: Env)
    ensures forall i :: 0 <= i < |BootstrapEvents(env)| ==>
      !BootstrapEvents(env)[i].event.PackageInducted? && !BootstrapEvents(env)[i].event.PackageDelivered?
  {
  }

  lemma {:induction false} PromisesHold(env: Env, seed: Word, n: nat)
    requires env.Ok()
    ensures Promising(env, After(env, seed, n))
  {
    hide Bootstrap, StepHistory, Promising, Books, Timeline, Journeys, Undelivered, Initial;
    if n == 0 {
      NothingPromisedYet(env, seed);
    } else {
      PromisesHold(env, seed, n - 1);
      InvariantsHold(env, seed, n - 1);
      QueuedIsUndelivered(env, seed, n - 1);
      var h := After(env, seed, n - 1);
      if h.core.queue != [] {
        assert h.core.queue[0] in h.core.queue;
        if h.core.queue[0].task.InductPackage? { StepInducts(env, h); }
        else if h.core.queue[0].task.DeliverPackage? { StepDelivers(env, h); }
        else { StepQuiet(env, h); }
      }
    }
  }

  /**
   * In every reachable log: an induction at one spoke promises delivery at another by the expected travel
   * and the slack of its class, an hour doubled for each class; and a delivery comes one to twenty minutes
   * after the package came off at its hub, marked on time if and only if no promise about it had run out.
   */
  lemma PromisesAndDeliveries(env: Env, seed: Word, n: nat, i: nat)
    requires env.Ok() && i < |After(env, seed, n).log|
    ensures FairPromise(env, After(env, seed, n).log[i]) && Truthful(After(env, seed, n).log, After(env, seed, n).log[i])
  {
    hide After, FairPromise, Truthful, TaskKept, Promised;
    PromisesHold(env, seed, n);
  }
}
