/**
 * What a trailer's visit to a spoke is: announced, read, unloaded down to the one package it may hold back,
 * sent back with what was held back and what is staged there, and turned round after the dwell at both ends.
 * Everything it logs and schedules, in order, with the random word each duration was drawn from.
 */
module SimVisits {
  import opened Generators
  import opened SimTypes
  import opened Simulation
  import opened SimFreight

  // ----- The parts of a visit ----------------------------------------------------------------

  function On(t: TrailerId, e: DomainEvent, at: int): SimEvent { SimEvent(TrailerStream(t), e, at) }

  function Of(p: PackageId, e: DomainEvent, at: int): SimEvent { SimEvent(PackageStream(p), e, at) }

  /** The reads of one reader, and the word they leave. */
  function Reads(env: Env, w: Word, reader: ReaderType, t: TrailerId, hub: Hub, packages: seq<PackageId>): (Word, seq<RfidRead>) {
    if env.rfidOn && packages != [] then env.rfidReads(w, reader, t, hub, packages) else (w, [])
  }

  function Read(t: TrailerId, seen: seq<RfidRead>, at: int): seq<SimEvent> {
    seq(|seen|, i requires 0 <= i < |seen| => On(t, RfidObserved(seen[i]), at))
  }

  /** The last package rides on when the draw, as a fraction, is below the rate. */
  function Held(env: Env, rng: RngStates, carried: seq<PackageId>): Option<PackageId> {
    if env.overCarryRate > 0.0 && carried != [] && env.generator.output(Next(env, rng.overCarry)) as real / 4294967296.0 < env.overCarryRate
    then Some(carried[|carried| - 1]) else None
  }

  function Unloaded(carried: seq<PackageId>, held: Option<PackageId>): seq<PackageId> {
    if carried == [] then []
    else (if held == Some(carried[0]) then [] else [carried[0]]) + Unloaded(carried[1..], held)
  }

  function Off(packages: seq<PackageId>, hub: Hub, at: int): seq<SimEvent> {
    if packages == [] then []
    else [Of(packages[0], PackageScanned(packages[0], hub, Unload), at), Of(packages[0], PackageArrivedAtHub(packages[0], hub), at)]
         + Off(packages[1..], hub, at)
  }

  function LoadedAt(packages: seq<PackageId>, hub: Hub, at: int): seq<SimEvent> {
    seq(|packages|, i requires 0 <= i < |packages| => Of(packages[i], PackageScanned(packages[i], hub, Load), at))
  }

  /** Announced at the spoke, docked, read by the antenna as it is unloaded. */
  function LandingEvents(env: Env, rng: RngStates, t: TrailerId, spoke: Hub, trip: TripId, carried: seq<PackageId>, at: int): seq<SimEvent> {
    [On(t, TrailerArrivedAtHub(t, spoke, trip), at), On(t, TrailerDocked(t, spoke), at)]
    + (if env.hosOn then [On(t, TrailerPhase(UnloadStarted, t, spoke, trip), at)] else [])
    + Read(t, Reads(env, rng.rfid, Antenna, t, spoke, carried).1, at)
  }

  /** All but the package held back come off, in the order they were loaded. */
  function UnloadingEvents(env: Env, rng: RngStates, t: TrailerId, spoke: Hub, trip: TripId, carried: seq<PackageId>, at: int): seq<SimEvent> {
    Off(Unloaded(carried, Held(env, rng, carried)), spoke, at)
    + if env.hosOn then [On(t, TrailerPhase(UnloadCompleted, t, spoke, trip), at)] else []
  }

  // ----- Unloading -----------------------------------------------------------------------------

  lemma HeldIs(env: Env, e: Effect, carried: seq<PackageId>)
    ensures var (r, held) := HoldBack(env, e, carried);
      && held == Held(env, e.rng, carried)
      && r == e.(rng := e.rng.(overCarry := if env.overCarryRate > 0.0 && carried != [] then Next(env, e.rng.overCarry) else e.rng.overCarry))
  {
    var x := env.generator.output(Next(env, e.rng.overCarry)) as real;
    BelowRate(x, env.overCarryRate);
  }

  lemma BelowRate(x: real, rate: real)
    ensures x < rate * 4294967296.0 <==> x / 4294967296.0 < rate
  {
  }

  /** At a rate of one the last package always rides on, at zero none ever does. */
  lemma HeldAtTheExtremes(env: Env, rng: RngStates, carried: seq<PackageId>)
    ensures env.overCarryRate >= 1.0 && carried != [] ==> Held(env, rng, carried) == Some(carried[|carried| - 1])
    ensures env.overCarryRate <= 0.0 ==> Held(env, rng, carried) == None
  {
    var x := env.generator.output(Next(env, rng.overCarry));
    BelowRate(x as real, 1.0);
  }

  lemma {:induction false} UnloadedOfLonger(front: seq<PackageId>, p: PackageId, held: Option<PackageId>)
    ensures Unloaded(front + [p], held) == Unloaded(front, held) + if held == Some(p) then [] else [p]
  {
    if front == [] {
      assert ([] + [p])[1..] == [];
    } else {
      UnloadedOfLonger(front[1..], p, held);
      assert (front + [p])[1..] == front[1..] + [p] && (front + [p])[0] == front[0];
      Regroup(if held == Some(front[0]) then [] else [front[0]], Unloaded(front[1..], held), if held == Some(p) then [] else [p]);
    }
  }

  lemma Regroup<T>(a: seq<T>, b: seq<T>, c: seq<T>)
    ensures a + (b + c) == a + b + c
  {
  }

  lemma {:induction false} OffOfLonger(front: seq<PackageId>, p: PackageId, hub: Hub, at: int)
    ensures Off(front + [p], hub, at) == Off(front, hub, at) + [Of(p, PackageScanned(p, hub, Unload), at), Of(p, PackageArrivedAtHub(p, hub), at)]
  {
    if front == [] {
      assert ([] + [p])[1..] == [];
    } else {
      OffOfLonger(front[1..], p, hub, at);
      assert (front + [p])[1..] == front[1..] + [p];
    }
  }

  /** A stage that touches only the dwell words of the deliveries, the log and the schedule. */
  predicate OnlyOutbound(e: Effect, r: Effect) {
    r.world == e.world && r.rng == e.rng.(outbound := r.rng.outbound)
  }

  lemma UnloadOneLogs(env: Env, e: Effect, p: PackageId, spoke: Hub, tick: int, now: int)
    ensures var r := UnloadOne(env, e, p, spoke, tick, now);
      && OnlyOutbound(e, r) && e.spawned <= r.spawned && (forall i :: |e.spawned| <= i < |r.spawned| ==> r.spawned[i].task.DeliverPackage?)
      && r.events == e.events + [Of(p, PackageScanned(p, spoke, Unload), now), Of(p, PackageArrivedAtHub(p, spoke), now)]
  {
    hide Draw;
  }

  lemma {:induction false} UnloadAllLogs(env: Env, e: Effect, carried: seq<PackageId>, held: Option<PackageId>, spoke: Hub, tick: int, now: int)
    ensures var r := UnloadAll(env, e, carried, held, spoke, tick, now);
      && OnlyOutbound(e, r) && e.spawned <= r.spawned && (forall i :: |e.spawned| <= i < |r.spawned| ==> r.spawned[i].task.DeliverPackage?)
      && r.events == e.events + Off(Unloaded(carried, held), spoke, now)
  {
    hide UnloadOne;
    if carried == [] {
      assert e.events + [] == e.events;
    } else {
      var front, p := carried[..|carried| - 1], carried[|carried| - 1];
      assert front + [p] == carried;
      UnloadAllLogs(env, e, front, held, spoke, tick, now);
      UnloadedOfLonger(front, p, held);
      var before := UnloadAll(env, e, front, held, spoke, tick, now);
      if held == Some(p) {
        assert Unloaded(front, held) + [] == Unloaded(front, held);
      } else {
        UnloadOneLogs(env, before, p, spoke, tick, now);
        OffOfLonger(Unloaded(front, held), p, spoke, now);
        var two := [Of(p, PackageScanned(p, spoke, Unload), now), Of(p, PackageArrivedAtHub(p, spoke), now)];
        assert e.events + Off(Unloaded(front, held), spoke, now) + two == e.events + (Off(Unloaded(front, held), spoke, now) + two);
      }
    }
  }

  // ----- A whole visit ------------------------------------------------------------------------------

  /** The words and durations a visit draws: the way back with a package held back, the way back with what is staged, the dwells. */
  datatype Draws = Draws(back: nat, over: nat, here: nat, there: nat, after: Word)

  function DrawsOf(env: Env, w1: Word, spoke: Hub, held: bool): Draws {
    var (w2, back) := if held then DrawTransit(env, w1, spoke, Center) else (w1, 0);
    var (w3, over) := if env.consolidationOn then DrawTransit(env, w2, spoke, Center) else (w2, 0);
    var (w4, here) := DrawDwell(env, w3, spoke);
    var (w5, there) := DrawDwell(env, w4, Center);
    Draws(back, over, here, there, w5)
  }

  /** The trip that takes the package held back to the center, read by the portal as it leaves. */
  function ReturnEvents(env: Env, w: Word, t: TrailerId, spoke: Hub, trip: TripId, held: Option<PackageId>, at: int): (Word, seq<SimEvent>) {
    match held
    case None => (w, [])
    case Some(p) =>
      var (w', seen) := Reads(env, w, Portal, t, spoke, [p]);
      (w', [On(t, TrailerDeparted(t, spoke, Center, trip, [p]), at)] + Read(t, seen, at))
  }

  /** The trip that takes everything staged at the spoke to the center. */
  function ConsolidationEvents(env: Env, w: Word, t: TrailerId, spoke: Hub, trip: TripId, staged: seq<PackageId>, at: int): (Word, seq<SimEvent>) {
    if !env.consolidationOn then (w, [])
    else
      var (w', seen) := Reads(env, w, Portal, t, spoke, staged);
      (w', LoadedAt(staged, spoke, at) + [On(t, TrailerDeparted(t, spoke, Center, trip, staged), at)] + Read(t, seen, at))
  }

  /** Everything a visit logs. */
  function VisitEvents(env: Env, rng: RngStates, w: World, t: TrailerId, spoke: Hub, trip: TripId, carried: seq<PackageId>, at: int): seq<SimEvent> {
    var held := Held(env, rng, carried);
    var first := w.tripCounter + 1;
    var (f, returned) := ReturnEvents(env, Reads(env, rng.rfid, Antenna, t, spoke, carried).0, t, spoke, first, held, at);
    LandingEvents(env, rng, t, spoke, trip, carried, at)
    + UnloadingEvents(env, rng, t, spoke, trip, carried, at)
    + returned
    + ConsolidationEvents(env, f, t, spoke, if held.Some? then first + 1 else first, SortIds(env, Manifest(w.pendingAtSpoke, spoke)), at).1
  }

  /** What a visit schedules besides the deliveries: the two ways back, and the next departure after both dwells. */
  function VisitTasks(env: Env, rng: RngStates, w: World, t: TrailerId, spoke: Hub, carried: seq<PackageId>, at: int): seq<Timed> {
    var held := Held(env, rng, carried);
    var d, first := DrawsOf(env, rng.timing, spoke, held.Some?), w.tripCounter + 1;
    var next := at + d.here + d.there;
    (if held.Some? then [Timed(at + d.back, ArriveOverCarriedAtCenter(t, held.value, first))] else [])
    + (if env.consolidationOn
       then [Timed(at + d.over, ArriveConsolidationAtCenter(t, SortIds(env, Manifest(w.pendingAtSpoke, spoke)), if held.Some? then first + 1 else first))]
       else [])
    + [Timed(next, DepartTrailer(t, spoke, next))]
  }

  ghost predicate OnlyDeliveries(spawned: seq<Timed>) { forall i :: 0 <= i < |spawned| ==> spawned[i].task.DeliverPackage? }

  // ----- Stage by stage ---------------------------------------------------------------------------------

  lemma ReadIs(env: Env, e: Effect, reader: ReaderType, t: TrailerId, hub: Hub, packages: seq<PackageId>, at: int)
    ensures var (w', seen) := Reads(env, e.rng.rfid, reader, t, hub, packages);
      RfidEffect(env, e, reader, t, hub, packages, at) == Effect(e.rng.(rfid := w'), e.world, e.events + Read(t, seen, at), e.spawned)
  {
    assert e.events + [] == e.events;
  }

  lemma DockIs(env: Env, rng: RngStates, w: World, t: TrailerId, spoke: Hub, trip: TripId, carried: seq<PackageId>, at: int)
    ensures var r := Dock(env, Effect(rng, w, [], []), t, spoke, trip, carried, at);
      r == Effect(rng.(rfid := Reads(env, rng.rfid, Antenna, t, spoke, carried).0), w, LandingEvents(env, rng, t, spoke, trip, carried, at), [])
  {
    hide Reads, Read, RfidEffect;
    var announced := ArrivalEvents(t, spoke, trip, at) + PhaseEvents(env, UnloadStarted, t, spoke, trip, at);
    ReadIs(env, Effect(rng, w, [], []).Emit(announced), Antenna, t, spoke, carried, at);
    assert [] + announced == announced;
  }

  lemma UnloadPhaseIs(env: Env, e: Effect, t: TrailerId, spoke: Hub, trip: TripId, carried: seq<PackageId>, at: int)
    requires e.spawned == []
    ensures var (r, held) := UnloadPhase(env, e, t, spoke, trip, carried, at, at);
      && held == Held(env, e.rng, carried) && OnlyDeliveries(r.spawned)
      && r.world == e.world && r.rng.timing == e.rng.timing && r.rng.rfid == e.rng.rfid
      && r.events == e.events + UnloadingEvents(env, e.rng, t, spoke, trip, carried, at)
  {
    hide UnloadAll, Held, Off, Unloaded;
    HeldIs(env, e, carried);
    var (drawn, held) := HoldBack(env, e, carried);
    UnloadAllLogs(env, drawn, carried, held, spoke, at, at);
    Regroup(e.events, Off(Unloaded(carried, held), spoke, at), PhaseEvents(env, UnloadCompleted, t, spoke, trip, at));
  }

  lemma RideOnIs(env: Env, e: Effect, t: TrailerId, spoke: Hub, held: Option<PackageId>, at: int)
    ensures var r := RideOn(env, e, t, spoke, held, at, at);
      var first := e.world.tripCounter + 1;
      var (w2, back) := if held.Some? then DrawTransit(env, e.rng.timing, spoke, Center) else (e.rng.timing, 0);
      && r.world == e.world.(tripCounter := if held.Some? then first else e.world.tripCounter)
      && r.rng.timing == w2 && r.rng.rfid == ReturnEvents(env, e.rng.rfid, t, spoke, first, held, at).0
      && r.events == e.events + ReturnEvents(env, e.rng.rfid, t, spoke, first, held, at).1
      && r.spawned == e.spawned + if held.Some? then [Timed(at + back, ArriveOverCarriedAtCenter(t, held.value, first))] else []
  {
    hide DrawTransit, Reads, Read, RfidEffect;
    assert e.events + [] == e.events && e.spawned + [] == e.spawned;
    if held.Some? {
      var trip := e.world.tripCounter + 1;
      var departed := [On(t, TrailerDeparted(t, spoke, Center, trip, [held.value]), at)];
      var left := e.(world := e.world.(tripCounter := trip)).Emit(departed);
      ReadIs(env, left, Portal, t, spoke, [held.value], at);
      Regroup(e.events, departed, Read(t, Reads(env, e.rng.rfid, Portal, t, spoke, [held.value]).1, at));
    }
  }

  lemma ConsolidateIs(env: Env, e: Effect, t: TrailerId, spoke: Hub, at: int)
    ensures var r := Consolidate(env, e, t, spoke, at, at);
      var trip, staged := e.world.tripCounter + 1, SortIds(env, Manifest(e.world.pendingAtSpoke, spoke));
      var (w2, over) := if env.consolidationOn then DrawTransit(env, e.rng.timing, spoke, Center) else (e.rng.timing, 0);
      && r.world == (if env.consolidationOn then e.world.(tripCounter := trip, pendingAtSpoke := e.world.pendingAtSpoke[spoke := []]) else e.world)
      && r.rng.timing == w2
      && r.events == e.events + ConsolidationEvents(env, e.rng.rfid, t, spoke, trip, staged, at).1
      && r.spawned == e.spawned + if env.consolidationOn then [Timed(at + over, ArriveConsolidationAtCenter(t, staged, trip))] else []
  {
    hide DrawTransit, Reads, Read, RfidEffect, SortIds;
    assert e.events + [] == e.events && e.spawned + [] == e.spawned;
    if env.consolidationOn {
      var trip, staged := e.world.tripCounter + 1, SortIds(env, Manifest(e.world.pendingAtSpoke, spoke));
      var leaving := LoadedAt(staged, spoke, at) + [On(t, TrailerDeparted(t, spoke, Center, trip, staged), at)];
      assert LoadScans(staged, spoke, at) == LoadedAt(staged, spoke, at);
      var left := e.(world := e.world.(tripCounter := trip, pendingAtSpoke := e.world.pendingAtSpoke[spoke := []])).Emit(leaving);
      ReadIs(env, left, Portal, t, spoke, staged, at);
      Regroup(e.events, leaving, Read(t, Reads(env, e.rng.rfid, Portal, t, spoke, staged).1, at));
    }
  }

  lemma HeldLater(env: Env, rng: RngStates, later: RngStates, t: TrailerId, spoke: Hub, trip: TripId, carried: seq<PackageId>, at: int)
    requires later.overCarry == rng.overCarry
    ensures Held(env, later, carried) == Held(env, rng, carried)
    ensures UnloadingEvents(env, later, t, spoke, trip, carried, at) == UnloadingEvents(env, rng, t, spoke, trip, carried, at)
  {
    hide Off, Unloaded;
  }

  lemma FireVisits(env: Env, rng: RngStates, w: World, t: TrailerId, spoke: Hub, trip: TripId, carried: seq<PackageId>, at: int)
    requires env.Ok()
    ensures var docked := Dock(env, Effect(rng, w, [], []), t, spoke, trip, carried, at);
      var (unloaded, held) := UnloadPhase(env, docked, t, spoke, trip, carried, at, at);
      var over := Consolidate(env, RideOn(env, unloaded, t, spoke, held, at, at), t, spoke, at, at);
      Fire(env, rng, w, SimTask.ArriveTrailer(t, spoke, trip, carried, at), at) == TurnAround(env, over, t, spoke, at)
  {
    hide Dock, UnloadPhase, RideOn, Consolidate, TurnAround;
  }

  lemma TurnAroundIs(env: Env, e: Effect, t: TrailerId, spoke: Hub, at: int)
    ensures var r := TurnAround(env, e, t, spoke, at);
      var (w4, here) := DrawDwell(env, e.rng.timing, spoke);
      var (w5, there) := DrawDwell(env, w4, Center);
      && r.world == e.world && r.events == e.events && r.rng.timing == w5
      && r.spawned == e.spawned + [Timed(at + here + there, DepartTrailer(t, spoke, at + here + there))]
  {
    hide DrawDwell;
  }

  /** The tasks come out in the order of the stages. */
  lemma TasksInOrder(env: Env, rng: RngStates, w: World, t: TrailerId, spoke: Hub, carried: seq<PackageId>, at: int,
                     unloaded: Effect, ridden: Effect, over: Effect, r: Effect)
    requires unloaded.world == w && unloaded.rng.timing == rng.timing
    requires var held, first := Held(env, rng, carried), w.tripCounter + 1;
      var (w2, back) := if held.Some? then DrawTransit(env, rng.timing, spoke, Center) else (rng.timing, 0);
      && ridden.world == w.(tripCounter := if held.Some? then first else w.tripCounter) && ridden.rng.timing == w2
      && ridden.spawned == unloaded.spawned + if held.Some? then [Timed(at + back, ArriveOverCarriedAtCenter(t, held.value, first))] else []
    requires var trip, staged := ridden.world.tripCounter + 1, SortIds(env, Manifest(ridden.world.pendingAtSpoke, spoke));
      var (w3, over') := if env.consolidationOn then DrawTransit(env, ridden.rng.timing, spoke, Center) else (ridden.rng.timing, 0);
      && over.world == (if env.consolidationOn then ridden.world.(tripCounter := trip, pendingAtSpoke := ridden.world.pendingAtSpoke[spoke := []]) else ridden.world)
      && over.rng.timing == w3
      && over.spawned == ridden.spawned + if env.consolidationOn then [Timed(at + over', ArriveConsolidationAtCenter(t, staged, trip))] else []
    requires var (w4, here) := DrawDwell(env, over.rng.timing, spoke);
      var (w5, there) := DrawDwell(env, w4, Center);
      && r.world == over.world && r.rng.timing == w5
      && r.spawned == over.spawned + [Timed(at + here + there, DepartTrailer(t, spoke, at + here + there))]
    ensures r.spawned == unloaded.spawned + VisitTasks(env, rng, w, t, spoke, carried, at)
    ensures r.rng.timing == DrawsOf(env, rng.timing, spoke, Held(env, rng, carried).Some?).after
    ensures r.world.tripCounter == w.tripCounter + (if Held(env, rng, carried).Some? then 1 else 0) + (if env.consolidationOn then 1 else 0)
  {
    hide Held, DrawTransit, DrawDwell, SortIds, Manifest;
  }

  lemma EventsInOrder(env: Env, rng: RngStates, w: World, t: TrailerId, spoke: Hub, trip: TripId, carried: seq<PackageId>, at: int,
                      unloaded: Effect, ridden: Effect, over: Effect)
    requires unloaded.events == LandingEvents(env, rng, t, spoke, trip, carried, at) + UnloadingEvents(env, rng, t, spoke, trip, carried, at)
    requires unloaded.rng.rfid == Reads(env, rng.rfid, Antenna, t, spoke, carried).0
    requires var held, first := Held(env, rng, carried), w.tripCounter + 1;
      && ridden.world == w.(tripCounter := if held.Some? then first else w.tripCounter)
      && ridden.rng.rfid == ReturnEvents(env, unloaded.rng.rfid, t, spoke, first, held, at).0
      && ridden.events == unloaded.events + ReturnEvents(env, unloaded.rng.rfid, t, spoke, first, held, at).1
    requires over.events == ridden.events
      + ConsolidationEvents(env, ridden.rng.rfid, t, spoke, ridden.world.tripCounter + 1, SortIds(env, Manifest(ridden.world.pendingAtSpoke, spoke)), at).1
    ensures over.events == VisitEvents(env, rng, w, t, spoke, trip, carried, at)
  {
    hide Held, Reads, SortIds, Manifest, LandingEvents, UnloadingEvents, ReturnEvents, ConsolidationEvents;
  }

  /** A visit, from its landing to the next departure: exactly these events, these tasks, these durations. */
  lemma VisitIs(env: Env, rng: RngStates, w: World, t: TrailerId, spoke: Hub, trip: TripId, carried: seq<PackageId>, at: int)
    returns (deliveries: seq<Timed>)
    requires env.Ok()
    ensures var r := Fire(env, rng, w, SimTask.ArriveTrailer(t, spoke, trip, carried, at), at);
      && r.events == VisitEvents(env, rng, w, t, spoke, trip, carried, at)
      && OnlyDeliveries(deliveries) && r.spawned == deliveries + VisitTasks(env, rng, w, t, spoke, carried, at)
      && r.rng.timing == DrawsOf(env, rng.timing, spoke, Held(env, rng, carried).Some?).after
      && r.world.tripCounter == w.tripCounter + (if Held(env, rng, carried).Some? then 1 else 0) + (if env.consolidationOn then 1 else 0)
  {
    hide *;
    DockIs(env, rng, w, t, spoke, trip, carried, at);
    var docked := Dock(env, Effect(rng, w, [], []), t, spoke, trip, carried, at);
    HeldLater(env, rng, docked.rng, t, spoke, trip, carried, at);
    UnloadPhaseIs(env, docked, t, spoke, trip, carried, at);
    var (unloaded, held) := UnloadPhase(env, docked, t, spoke, trip, carried, at, at);
    deliveries := unloaded.spawned;
    RideOnIs(env, unloaded, t, spoke, held, at);
    var ridden := RideOn(env, unloaded, t, spoke, held, at, at);
    ConsolidateIs(env, ridden, t, spoke, at);
    var over := Consolidate(env, ridden, t, spoke, at, at);
    TurnAroundIs(env, over, t, spoke, at);
    FireVisits(env, rng, w, t, spoke, trip, carried, at);
    TasksInOrder(env, rng, w, t, spoke, carried, at, unloaded, ridden, over, TurnAround(env, over, t, spoke, at));
    EventsInOrder(env, rng, w, t, spoke, trip, carried, at, unloaded, ridden, over);
  }

  // ----- What is staged leaves in order ----------------------------------------------------------------

  /** The order of ids is a strict total one. */
  ghost predicate TotalOrder(env: Env) {
    && (forall p, q :: !(env.idBefore(p, q) && env.idBefore(q, p)))
    && (forall p, q :: p != q ==> env.idBefore(p, q) || env.idBefore(q, p))
    && (forall p, q, r :: env.idBefore(p, q) && env.idBefore(q, r) ==> env.idBefore(p, r))
  }

  ghost predicate InIdOrder(env: Env, ids: seq<PackageId>) {
    forall i, j :: 0 <= i < j < |ids| ==> !env.idBefore(ids[j], ids[i])
  }

  lemma {:induction false} InsertKeepsAll(env: Env, p: PackageId, ids: seq<PackageId>)
    ensures multiset(InsertId(env, p, ids)) == multiset(ids) + multiset{p}
  {
    if ids != [] {
      assert ids == [ids[0]] + ids[1..];
      if !env.idBefore(p, ids[0]) { InsertKeepsAll(env, p, ids[1..]); }
    }
  }

  lemma FirstInOrder(env: Env, p: PackageId, ids: seq<PackageId>)
    requires InIdOrder(env, ids) && forall j :: 0 <= j < |ids| ==> !env.idBefore(ids[j], p)
    ensures InIdOrder(env, [p] + ids)
  {
  }

  lemma OthersFollow(env: Env, p: PackageId, first: PackageId, other: PackageId)
    requires TotalOrder(env) && env.idBefore(p, first) && !env.idBefore(other, first)
    ensures !env.idBefore(other, p)
  {
    assert env.idBefore(other, p) ==> env.idBefore(other, first);
  }

  lemma BeforeTheFirst(env: Env, p: PackageId, ids: seq<PackageId>)
    requires TotalOrder(env) && InIdOrder(env, ids) && ids != [] && env.idBefore(p, ids[0])
    ensures InIdOrder(env, [p] + ids)
  {
    forall j | 0 <= j < |ids| ensures !env.idBefore(ids[j], p) {
      var first, other := ids[0], ids[j];
      OthersFollow(env, p, first, other);
    }
    FirstInOrder(env, p, ids);
  }

  lemma {:induction false} InsertKeepsOrder(env: Env, p: PackageId, ids: seq<PackageId>)
    requires TotalOrder(env) && InIdOrder(env, ids)
    ensures InIdOrder(env, InsertId(env, p, ids))
  {
    if ids != [] {
      if env.idBefore(p, ids[0]) {
        BeforeTheFirst(env, p, ids);
      } else {
        InsertKeepsOrder(env, p, ids[1..]);
        InsertKeepsAll(env, p, ids[1..]);
        var rest := InsertId(env, p, ids[1..]);
        forall j | 0 <= j < |rest| ensures !env.idBefore(rest[j], ids[0]) {
          assert rest[j] in multiset(rest);
          if rest[j] != p {
            assert rest[j] in multiset(ids[1..]);
            var k :| 0 <= k < |ids[1..]| && ids[1..][k] == rest[j];
          }
        }
        FirstInOrder(env, ids[0], rest);
      }
    }
  }

  /** The packages of a consolidation are listed in id order, each once. */
  lemma {:induction false} StagedLeavesInOrder(env: Env, ids: seq<PackageId>)
    requires TotalOrder(env)
    ensures InIdOrder(env, SortIds(env, ids)) && multiset(SortIds(env, ids)) == multiset(ids)
  {
    if ids != [] {
      StagedLeavesInOrder(env, ids[..|ids| - 1]);
      InsertKeepsOrder(env, ids[|ids| - 1], SortIds(env, ids[..|ids| - 1]));
      InsertKeepsAll(env, ids[|ids| - 1], SortIds(env, ids[..|ids| - 1]));
      assert ids == ids[..|ids| - 1] + [ids[|ids| - 1]];
    }
  }
}
