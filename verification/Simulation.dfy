/**
 * The dispatch tasks of `packages/simulation/src/engine.ts`, each as a function of the random
 * words, the world and the instant it fires at. `Engine.dfy` proves that the imperative engine
 * computes these functions; the other `Sim*` files prove what they keep.
 */
module Simulation {
  import opened Hos
  import opened Generators
  import opened SimTypes

  const PACKAGE_INTERVAL_TICKS := 15
  const MAX_PACKAGES_PER_BATCH := 3
  const INDUCTION_INTERVAL_TICKS := 30
  const INDUCTION_START_TICK := 1
  const OUTBOUND_DWELL_TICKS_MAX := 20
  const HOS_REST_JITTER_TICKS := 15
  const RELAY_SPARE_DRIVERS := 6
  const TRAILER_STAGGER_TICKS := 7
  const SIZE_CLASSES := 3
  const SLA_CLASSES := 4

  /** A task to schedule, before it is given its place in the insertion order. */
  datatype Timed = Timed(fireTick: int, task: SimTask)

  /** What a handler leaves behind: words, world, the events it emitted, the tasks it scheduled. */
  datatype Effect = Effect(rng: RngStates, world: World, events: seq<SimEvent>, spawned: seq<Timed>)
  {
    function Emit(more: seq<SimEvent>): Effect { this.(events := events + more) }
    function Spawn(fireTick: int, task: SimTask): Effect { this.(spawned := spawned + [Timed(fireTick, task)]) }
  }

  // ----- Small pieces ----------------------------------------------------------

  function GetOr<K, V>(m: map<K, V>, k: K, default: V): V { if k in m then m[k] else default }

  function Manifest(m: map<Hub, seq<PackageId>>, hub: Hub): seq<PackageId> { GetOr(m, hub, []) }

  function PushTo(m: map<Hub, seq<PackageId>>, hub: Hub, p: PackageId): map<Hub, seq<PackageId>> {
    m[hub := Manifest(m, hub) + [p]]
  }

  /** A whole-number draw in `0 .. n-1` from one word. */
  function Draw(env: Env, w: Word, n: nat): (r: nat)
    requires n > 0
    ensures r < n
  {
    Scaled(env.generator.output(env.generator.advance(w)), n)
  }

  function Next(env: Env, w: Word): Word { env.generator.advance(w) }

  /** `Math.round`: the nearest whole number, halves up. */
  function Round(x: real): int { (x + 0.5).Floor }

  function OnPackage(p: PackageId, e: DomainEvent, now: int): SimEvent { SimEvent(PackageStream(p), e, now) }

  function OnTrailer(t: TrailerId, e: DomainEvent, now: int): SimEvent { SimEvent(TrailerStream(t), e, now) }

  function OnDriver(d: DriverId, e: DomainEvent, now: int): SimEvent { SimEvent(DriverStream(d), e, now) }

  function DutyEvent(d: DriverId, status: DutyStatus, cause: DutyReason, clock: HosClock, now: int): SimEvent {
    OnDriver(d, DriverDutyStateChanged(d, status, cause, clock), now)
  }

  function PhaseEvents(env: Env, kind: PhaseKind, t: TrailerId, hub: Hub, trip: TripId, now: int): seq<SimEvent> {
    if env.hosOn then [OnTrailer(t, TrailerPhase(kind, t, hub, trip), now)] else []
  }

  function LoadScans(packages: seq<PackageId>, hub: Hub, now: int): seq<SimEvent> {
    seq(|packages|, i requires 0 <= i < |packages| => OnPackage(packages[i], PackageScanned(packages[i], hub, Load), now))
  }

  function DrawTransit(env: Env, w: Word, from: Hub, to: Hub): (Word, nat) {
    var (w', ticks) := env.sampleTransit(w, from, to);
    (w', Max(1, ticks))
  }

  function DrawDwell(env: Env, w: Word, hub: Hub): (Word, nat) {
    var (w', ticks) := env.sampleDwell(w, hub);
    (w', Max(1, ticks))
  }

  function ReadEvents(t: TrailerId, seen: seq<RfidRead>, now: int): seq<SimEvent> {
    seq(|seen|, i requires 0 <= i < |seen| => OnTrailer(t, RfidObserved(seen[i]), now))
  }

  /** RFID reads go out only with the option on and something aboard. */
  function RfidEffect(env: Env, e: Effect, reader: ReaderType, t: TrailerId, hub: Hub, packages: seq<PackageId>, now: int): Effect {
    if env.rfidOn && |packages| > 0 then
      var (w', seen) := env.rfidReads(e.rng.rfid, reader, t, hub, packages);
      e.(rng := e.rng.(rfid := w')).Emit(ReadEvents(t, seen, now))
    else e
  }

  // ----- Freight creation ----------------------------------------------------------

  /** One package created at the center and queued for its spoke. */
  function MakePackage(env: Env, e: Effect, now: int): Effect
    requires env.Ok()
  {
    var w := e.world;
    var id := Created(w.packageCounter + 1);
    var r0 := e.rng.base;
    var r1 := Next(env, r0);
    var r2 := Next(env, r1);
    var dest := Spoke(Draw(env, r0, env.spokeCount));
    var sizeClass := Draw(env, r1, SIZE_CLASSES);
    var weight := 1 + Draw(env, r2, 50);
    Effect(
      e.rng.(base := Next(env, r2)),
      w.(packageCounter := w.packageCounter + 1, pendingBySpoke := PushTo(w.pendingBySpoke, dest, id)),
      e.events + [OnPackage(id, PackageCreated(id, dest, sizeClass, weight, env.rfidOn), now),
                  OnPackage(id, PackageScanned(id, Center, Inbound), now)],
      e.spawned)
  }

  function MakePackages(env: Env, e: Effect, count: nat, now: int): Effect
    requires env.Ok()
  {
    if count == 0 then e else MakePackage(env, MakePackages(env, e, count - 1, now), now)
  }

  /** The burst-quiet gate: pure arithmetic on the tick. */
  predicate QuietWindow(env: Env, tick: int) {
    && env.sortWave.Some?
    && var wave := env.sortWave.value;
       var period := wave.burstWindowTicks + wave.quietWindowTicks;
       (if period > 0 then tick % period else 0) >= wave.burstWindowTicks
  }

  function BatchSize(env: Env, w: Word): (Word, int)
    requires env.Ok()
  {
    match env.sortWave
    case Some(wave) => (w, wave.burstPackagesPerBatch)
    case None => (Next(env, w), 1 + Draw(env, w, MAX_PACKAGES_PER_BATCH * env.fleetPerSpoke))
  }

  function CreateBatch(env: Env, e: Effect, tick: int, now: int): Effect
    requires env.Ok()
  {
    var next := tick + PACKAGE_INTERVAL_TICKS;
    if QuietWindow(env, tick) then e.Spawn(next, CreatePackageBatch(next))
    else
      var (w', count) := BatchSize(env, e.rng.base);
      MakePackages(env, e.(rng := e.rng.(base := w')), Max(0, count), now).Spawn(next, CreatePackageBatch(next))
  }

  function SlaBuffer(slaClass: nat): int {
    if slaClass == 0 then 60 else if slaClass == 1 then 120 else if slaClass == 2 then 240 else 480
  }

  /** The spoke at position `k` once the spoke `skip` is taken out of the list. */
  function OtherSpoke(skip: nat, k: nat): Hub { if k < skip then Spoke(k) else Spoke(k + 1) }

  function Induct(env: Env, e: Effect, tick: int, now: int): Effect
    requires env.Ok()
  {
    if !env.inductionOn || e.rng.induction.None? then e
    else
      var w := e.world;
      var n := w.inductionCounter + 1;
      var id := External(n);
      var r0 := e.rng.induction.value;
      var r1 := Next(env, r0);
      var r2 := Next(env, r1);
      var from := Spoke(Draw(env, r0, env.spokeCount));
      var dest := OtherSpoke(from.index, Draw(env, r1, env.spokeCount - 1));
      var slaClass := Draw(env, r2, SLA_CLASSES);
      var deadline := now + env.expectedTravel(from, dest) + SlaBuffer(slaClass);
      var next := tick + INDUCTION_INTERVAL_TICKS;
      Effect(
        e.rng.(induction := Some(Next(env, r2))),
        w.(inductionCounter := n,
           slaDeadline := if env.outboundOn then w.slaDeadline[id := deadline] else w.slaDeadline,
           pendingAtSpoke := if env.consolidationOn then PushTo(w.pendingAtSpoke, from, id) else w.pendingAtSpoke,
           consolidationDest := if env.consolidationOn then w.consolidationDest[id := dest] else w.consolidationDest),
        e.events + [OnPackage(id, PackageInducted(id, from, dest, slaClass, deadline), now)],
        e.spawned).Spawn(next, InductPackage(next))
  }

  function Deliver(env: Env, e: Effect, p: PackageId, hub: Hub, deadline: Option<int>, now: int): Effect {
    if !env.outboundOn || e.rng.outbound.None? then e
    else
      var onTime := deadline.Some? ==> now <= deadline.value;
      Effect(
        e.rng,
        e.world.(deliveredCounter := e.world.deliveredCounter + 1, slaDeadline := e.world.slaDeadline - {p}),
        e.events + [OnPackage(p, PackageDelivered(p, hub, now, onTime), now)],
        e.spawned)
  }

  // ----- Drivers ---------------------------------------------------------------------

  function FreshHosClock(now: int): HosClock { HosClock(0, now, 0, 0, now, 0, 0) }

  function DriverOf(w: World, t: TrailerId): DriverId { GetOr(w.driverByTrailer, t, 0) }

  function ClockOf(w: World, d: DriverId): HosClock { GetOr(w.clockByDriver, d, FreshHosClock(0)) }

  function LegalMinutes(env: Env, clock: HosClock, now: int): int {
    if MayDriveNow(clock, env.hosConfig, now) then RemainingLegalDriveMinutes(clock, env.hosConfig, now) else 0
  }

  predicate Free(w: World, d: DriverId, now: int) { d in w.availableAt ==> w.availableAt[d] <= now }

  /** The first spare, in registration order, that is not `current` and is free now. */
  function FirstFree(w: World, pool: seq<DriverId>, current: DriverId, now: int): Option<DriverId> {
    if pool == [] then None
    else if pool[0] != current && Free(w, pool[0], now) then Some(pool[0])
    else FirstFree(w, pool[1..], current, now)
  }

  function RemoveFirst(pool: seq<DriverId>, d: DriverId): seq<DriverId> {
    if pool == [] then [] else if pool[0] == d then pool[1..] else [pool[0]] + RemoveFirst(pool[1..], d)
  }

  datatype Choice = Choice(world: World, events: seq<SimEvent>, driver: DriverId)

  /** The relay: the tired driver goes into a 10h rest in the pool, the fresh one takes the trailer. */
  function Relay(env: Env, w: World, t: TrailerId, trip: TripId, current: DriverId, relief: DriverId, now: int): Choice {
    var reset := env.hosConfig.resetOffDutyMin;
    var rested := FreshHosClock(now + reset).(weeklyOnDutyMin := ClockOf(w, current).weeklyOnDutyMin);
    var pool := if current in w.sparePool then w.sparePool else w.sparePool + [current];
    Choice(
      w.(clockByDriver := w.clockByDriver[current := rested][relief := FreshHosClock(now)],
         availableAt := w.availableAt[current := now + reset][relief := now],
         sparePool := RemoveFirst(pool, relief),
         driverByTrailer := w.driverByTrailer[t := relief]),
      [OnTrailer(t, DriverSwappedAtHub(current, relief, Center, trip, t), now),
       DutyEvent(current, Resting, RelayHandoff, rested, now)],
      relief)
  }

  function SelectDriver(env: Env, w: World, t: TrailerId, trip: TripId, legMinutes: int, now: int): Choice {
    var current := DriverOf(w, t);
    var currentRemaining := LegalMinutes(env, ClockOf(w, current), now);
    if currentRemaining >= legMinutes then
      Choice(w.(availableAt := w.availableAt[current := now]), [], current)
    else
      var relief := if LegalMinutes(env, FreshHosClock(now), now) > currentRemaining
                   then FirstFree(w, w.sparePool, current, now) else None;
      match relief
      case None => Choice(w, [], current)
      case Some(d) => Relay(env, w, t, trip, current, d, now)
  }

  datatype Pauses = Pauses(word: Word, events: seq<SimEvent>, extra: int, rests: seq<Pause>)

  /** The pauses of a leg's log, each with its own jitter draw, in log order. */
  function LegPauses(env: Env, word: Word, d: DriverId, log: seq<DutySegment>, clock: HosClock, now: int): Pauses {
    if log == [] then Pauses(word, [], 0, [])
    else
      var before := LegPauses(env, word, d, log[..|log| - 1], clock, now);
      var s := log[|log| - 1];
      if s.kind == Drive then before
      else
        var minutes := s.minutes + Draw(env, before.word, HOS_REST_JITTER_TICKS + 1);
        var isBreak := s.kind == Break;
        Pauses(
          Next(env, before.word),
          before.events + [DutyEvent(d, if isBreak then OnBreak else Resting, if isBreak then BreakDue else Reset10h, clock, now)],
          before.extra + minutes,
          before.rests + [Pause(if isBreak then Break30min else Rest10h, minutes)])
  }

  datatype Accrual = Accrual(effect: Effect, extra: int, rests: seq<Pause>)

  function AccrueLeg(env: Env, e: Effect, d: DriverId, legMinutes: nat, now: int): Accrual
    requires env.Ok()
  {
    var leg := DriveLeg(ClockOf(e.world, d), env.hosConfig, legMinutes, now);
    var pauses := LegPauses(env, e.rng.hos, d, leg.segments, leg.clock, now);
    Accrual(
      Effect(
        e.rng.(hos := pauses.word),
        e.world.(clockByDriver := e.world.clockByDriver[d := leg.clock]),
        e.events + pauses.events + if pauses.extra > 0 then [DutyEvent(d, Driving, RestComplete, leg.clock, now)] else [],
        e.spawned),
      pauses.extra,
      pauses.rests)
  }

  // ----- Departures ------------------------------------------------------------------

  /** Drain the spoke's manifest onto the trailer and send it off. */
  function LoadAndLeave(env: Env, e: Effect, t: TrailerId, spoke: Hub, now: int): Effect {
    var w := e.world;
    var trip := w.tripCounter + 1;
    var loaded := Manifest(w.pendingBySpoke, spoke);
    Effect(
      e.rng,
      w.(tripCounter := trip, pendingBySpoke := w.pendingBySpoke[spoke := []]),
      e.events + LoadScans(loaded, Center, now) + PhaseEvents(env, LoadStarted, t, Center, trip, now)
               + [OnTrailer(t, TrailerDeparted(t, Center, spoke, trip, loaded), now)],
      e.spawned)
  }

  /** Pick the driver for the leg and put the trip in that driver's name. */
  function Dispatch(env: Env, e: Effect, t: TrailerId, trip: TripId, transit: int, now: int): Effect {
    if !env.hosOn then e
    else
      var choice := SelectDriver(env, e.world, t, trip, transit, now);
      e.(world := choice.world).Emit(
        choice.events
        + [OnDriver(choice.driver, DriverAssignedToTrip(choice.driver, trip, t), now),
           DutyEvent(choice.driver, Driving, TripDispatched, ClockOf(choice.world, choice.driver), now)])
  }

  function DriveOut(env: Env, e: Effect, t: TrailerId, transit: nat, now: int): Accrual
    requires env.Ok()
  {
    if env.hosOn then AccrueLeg(env, e, DriverOf(e.world, t), transit, now) else Accrual(e, 0, [])
  }

  datatype Refuel = Refuel(world: World, ticks: int, odometer: real, happened: bool)

  function AccrueMiles(env: Env, w: World, t: TrailerId, spoke: Hub): Refuel {
    if !env.fuelOn then Refuel(w, 0, 0.0, false)
    else
      var miles := GetOr(w.odometer, t, 0.0) + env.legMiles(Center, spoke);
      if miles >= env.fuelConfig.refuelThresholdMiles then
        Refuel(w.(odometer := w.odometer[t := 0.0]), Round(env.fuelConfig.refuelTimeMinutes), miles, true)
      else
        Refuel(w.(odometer := w.odometer[t := miles]), 0, 0.0, false)
  }

  lemma MilesTouchOnlyTheOdometer(env: Env, w: World, t: TrailerId, spoke: Hub)
    ensures var r := AccrueMiles(env, w, t, spoke); r.world == w.(odometer := r.world.odometer)
  {
    hide Round;
  }

  /** The end of a departure: book the driver, schedule the mid-leg stops and the arrival. */
  function Underway(env: Env, a: Accrual, t: TrailerId, spoke: Hub, trip: TripId, loaded: seq<PackageId>,
                    transit: nat, departTick: int, now: int): Effect
  {
    var e := a.effect;
    var refuel := AccrueMiles(env, e.world, t, spoke);
    var added := Max(a.extra, refuel.ticks);
    var w := if env.hosOn
             then refuel.world.(availableAt := refuel.world.availableAt[DriverOf(refuel.world, t) := now + transit + added])
             else refuel.world;
    var stops := env.fuelOn && (|a.rests| > 0 || refuel.happened);
    var e1 := e.(world := w);
    var e2 := if stops
              then e1.Spawn(departTick + transit / 2, MidLegStops(t, trip, a.rests, refuel.happened, refuel.odometer))
              else e1;
    var arriveTick := departTick + transit + added;
    e2.Spawn(arriveTick, ArriveTrailer(t, spoke, trip, loaded, arriveTick))
  }

  /** Load, leave, and draw how long the leg will take. */
  function Roll(env: Env, e: Effect, t: TrailerId, spoke: Hub, now: int): (Effect, nat) {
    var left := LoadAndLeave(env, e, t, spoke, now);
    var (timing, transit) := DrawTransit(env, left.rng.timing, Center, spoke);
    (left.(rng := left.rng.(timing := timing)), transit)
  }

  /** Everything of a departure up to the accrued leg. */
  function Launch(env: Env, e: Effect, t: TrailerId, spoke: Hub, now: int): (Accrual, nat)
    requires env.Ok()
  {
    var (rolled, transit) := Roll(env, e, t, spoke, now);
    var dispatched := Dispatch(env, rolled, t, e.world.tripCounter + 1, transit, now);
    var read := RfidEffect(env, dispatched, Portal, t, Center, Manifest(e.world.pendingBySpoke, spoke), now);
    (DriveOut(env, read, t, transit, now), transit)
  }

  function Depart(env: Env, e: Effect, t: TrailerId, spoke: Hub, departTick: int, now: int): Effect
    requires env.Ok()
  {
    var (accrued, transit) := Launch(env, e, t, spoke, now);
    Underway(env, accrued, t, spoke, e.world.tripCounter + 1, Manifest(e.world.pendingBySpoke, spoke), transit, departTick, now)
  }

  // ----- Arrivals --------------------------------------------------------------------

  function ArrivalEvents(t: TrailerId, hub: Hub, trip: TripId, now: int): seq<SimEvent> {
    [OnTrailer(t, TrailerArrivedAtHub(t, hub, trip), now), OnTrailer(t, TrailerDocked(t, hub), now)]
  }

  function UnloadEvents(p: PackageId, hub: Hub, now: int): seq<SimEvent> {
    [OnPackage(p, PackageScanned(p, hub, Unload), now), OnPackage(p, PackageArrivedAtHub(p, hub), now)]
  }

  /** At most one package rides on: the last one carried, when the draw falls under the rate. */
  function HoldBack(env: Env, e: Effect, carried: seq<PackageId>): (Effect, Option<PackageId>) {
    if env.overCarryRate > 0.0 && |carried| > 0 then
      var w' := Next(env, e.rng.overCarry);
      (e.(rng := e.rng.(overCarry := w')),
       if env.generator.output(w') as real < env.overCarryRate * 4294967296.0 then Some(carried[|carried| - 1]) else None)
    else (e, None)
  }

  function UnloadOne(env: Env, e: Effect, p: PackageId, spoke: Hub, arriveTick: int, now: int): Effect {
    var unloaded := e.Emit(UnloadEvents(p, spoke, now));
    if env.outboundOn && e.rng.outbound.Some? then
      var dwell := 1 + Draw(env, e.rng.outbound.value, OUTBOUND_DWELL_TICKS_MAX);
      var deadline := if p in e.world.slaDeadline then Some(e.world.slaDeadline[p]) else None;
      unloaded.(rng := e.rng.(outbound := Some(Next(env, e.rng.outbound.value))))
        .Spawn(arriveTick + dwell, DeliverPackage(p, spoke, deadline, arriveTick + dwell))
    else unloaded
  }

  function UnloadAll(env: Env, e: Effect, carried: seq<PackageId>, held: Option<PackageId>, spoke: Hub, arriveTick: int, now: int): Effect {
    if carried == [] then e
    else
      var before := UnloadAll(env, e, carried[..|carried| - 1], held, spoke, arriveTick, now);
      var p := carried[|carried| - 1];
      if held == Some(p) then before else UnloadOne(env, before, p, spoke, arriveTick, now)
  }

  /** The spoke-origin departure that carries the held-back package back to the center. */
  function RideOn(env: Env, e: Effect, t: TrailerId, spoke: Hub, held: Option<PackageId>, arriveTick: int, now: int): Effect {
    match held
    case None => e
    case Some(p) =>
      var trip := e.world.tripCounter + 1;
      var left := e.(world := e.world.(tripCounter := trip))
                   .Emit([OnTrailer(t, TrailerDeparted(t, spoke, Center, trip, [p]), now)]);
      var read := RfidEffect(env, left, Portal, t, spoke, [p], now);
      var (timing, transit) := DrawTransit(env, read.rng.timing, spoke, Center);
      read.(rng := read.rng.(timing := timing)).Spawn(arriveTick + transit, ArriveOverCarriedAtCenter(t, p, trip))
  }

  function InsertId(env: Env, p: PackageId, ids: seq<PackageId>): seq<PackageId> {
    if ids == [] || env.idBefore(p, ids[0]) then [p] + ids else [ids[0]] + InsertId(env, p, ids[1..])
  }

  function SortIds(env: Env, ids: seq<PackageId>): seq<PackageId> {
    if ids == [] then [] else InsertId(env, ids[|ids| - 1], SortIds(env, ids[..|ids| - 1]))
  }

  /** The turnaround trailer takes the whole staged manifest of the spoke, possibly empty. */
  function Consolidate(env: Env, e: Effect, t: TrailerId, spoke: Hub, arriveTick: int, now: int): Effect {
    if !env.consolidationOn then e
    else
      var consolidated := SortIds(env, Manifest(e.world.pendingAtSpoke, spoke));
      var trip := e.world.tripCounter + 1;
      var left := e.(world := e.world.(tripCounter := trip, pendingAtSpoke := e.world.pendingAtSpoke[spoke := []]))
                   .Emit(LoadScans(consolidated, spoke, now)
                         + [OnTrailer(t, TrailerDeparted(t, spoke, Center, trip, consolidated), now)]);
      var read := RfidEffect(env, left, Portal, t, spoke, consolidated, now);
      var (timing, transit) := DrawTransit(env, read.rng.timing, spoke, Center);
      read.(rng := read.rng.(timing := timing))
          .Spawn(arriveTick + transit, ArriveConsolidationAtCenter(t, consolidated, trip))
  }

  function TurnAround(env: Env, e: Effect, t: TrailerId, spoke: Hub, arriveTick: int): Effect {
    var (timing1, spokeDwell) := DrawDwell(env, e.rng.timing, spoke);
    var (timing2, centerDwell) := DrawDwell(env, timing1, Center);
    var nextDepart := arriveTick + spokeDwell + centerDwell;
    e.(rng := e.rng.(timing := timing2)).Spawn(nextDepart, DepartTrailer(t, spoke, nextDepart))
  }

  /** The trailer is announced, docked and read. */
  function Dock(env: Env, e: Effect, t: TrailerId, spoke: Hub, trip: TripId, carried: seq<PackageId>, now: int): Effect {
    RfidEffect(env,
               e.Emit(ArrivalEvents(t, spoke, trip, now) + PhaseEvents(env, UnloadStarted, t, spoke, trip, now)),
               Antenna, t, spoke, carried, now)
  }

  /** Decide what rides on, unload the rest, close the unload phase. */
  function UnloadPhase(env: Env, e: Effect, t: TrailerId, spoke: Hub, trip: TripId, carried: seq<PackageId>, arriveTick: int, now: int)
    : (Effect, Option<PackageId>)
  {
    var (drawn, held) := HoldBack(env, e, carried);
    (UnloadAll(env, drawn, carried, held, spoke, arriveTick, now).Emit(PhaseEvents(env, UnloadCompleted, t, spoke, trip, now)),
     held)
  }

  function Arrive(env: Env, e: Effect, t: TrailerId, spoke: Hub, trip: TripId, carried: seq<PackageId>, arriveTick: int, now: int): Effect {
    var docked := Dock(env, e, t, spoke, trip, carried, now);
    var (unloaded, held) := UnloadPhase(env, docked, t, spoke, trip, carried, arriveTick, now);
    var ridden := RideOn(env, unloaded, t, spoke, held, arriveTick, now);
    TurnAround(env, Consolidate(env, ridden, t, spoke, arriveTick, now), t, spoke, arriveTick)
  }

  function ArriveOverCarried(e: Effect, t: TrailerId, p: PackageId, trip: TripId, now: int): Effect {
    e.Emit(ArrivalEvents(t, Center, trip, now) + UnloadEvents(p, Center, now))
  }

  /** The cross-dock of one package; a package with no recorded destination makes the source throw. */
  function CrossDockOne(e: Effect, p: PackageId, now: int): Effect {
    var unloaded := e.Emit(UnloadEvents(p, Center, now));
    if p in e.world.consolidationDest then
      unloaded.(world := e.world.(consolidationDest := e.world.consolidationDest - {p},
                                  pendingBySpoke := PushTo(e.world.pendingBySpoke, e.world.consolidationDest[p], p)))
    else unloaded
  }

  function CrossDock(e: Effect, packages: seq<PackageId>, now: int): Effect {
    if packages == [] then e
    else CrossDockOne(CrossDock(e, packages[..|packages| - 1], now), packages[|packages| - 1], now)
  }

  function ArriveConsolidation(e: Effect, t: TrailerId, packages: seq<PackageId>, trip: TripId, now: int): Effect {
    CrossDock(e.Emit(ArrivalEvents(t, Center, trip, now)), packages, now)
  }

  /** Some package of the list finds no recorded onward destination when its turn comes. */
  predicate CrossDockThrows(dest: map<PackageId, Hub>, packages: seq<PackageId>) {
    packages != [] && (packages[0] !in dest || CrossDockThrows(dest - {packages[0]}, packages[1..]))
  }

  function RefuelEvent(env: Env, t: TrailerId, trip: TripId, odometer: real, now: int): SimEvent
    requires env.Ok()
  {
    var odo := Round(odometer);
    var burnt := odo as real / env.fuelConfig.milesPerGallon;
    var gallons := Round(if burnt <= env.fuelConfig.tankCapacityGallons then burnt else env.fuelConfig.tankCapacityGallons);
    OnTrailer(t, TruckRefueled(t, trip, gallons, odo, Round(env.fuelConfig.refuelTimeMinutes)), now)
  }

  function RestEvents(t: TrailerId, trip: TripId, rests: seq<Pause>, now: int): seq<SimEvent> {
    seq(|rests|, i requires 0 <= i < |rests| => OnTrailer(t, TruckRested(t, trip, rests[i].reason, rests[i].minutes), now))
  }

  // ----- Dispatch and drain --------------------------------------------------------------

  /** The single switch: what firing a task does. */
  function Fire(env: Env, rng: RngStates, world: World, task: SimTask, now: int): Effect
    requires env.Ok()
  {
    var e := Effect(rng, world, [], []);
    match task
    case CreatePackageBatch(tick) => CreateBatch(env, e, tick, now)
    case InductPackage(tick) => Induct(env, e, tick, now)
    case DepartTrailer(t, spoke, departTick) => Depart(env, e, t, spoke, departTick, now)
    case ArriveTrailer(t, spoke, trip, carried, arriveTick) => Arrive(env, e, t, spoke, trip, carried, arriveTick, now)
    case MidLegStops(t, trip, rests, didRefuel, odometer) =>
      e.Emit(RestEvents(t, trip, rests, now) + if didRefuel then [RefuelEvent(env, t, trip, odometer, now)] else [])
    case ArriveOverCarriedAtCenter(t, p, trip) => ArriveOverCarried(e, t, p, trip, now)
    case ArriveConsolidationAtCenter(t, packages, trip) => ArriveConsolidation(e, t, packages, trip, now)
    case DeliverPackage(p, hub, deadline, _) => Deliver(env, e, p, hub, deadline, now)
  }

  predicate Throws(world: World, task: SimTask) {
    task.ArriveConsolidationAtCenter? && CrossDockThrows(world.consolidationDest, task.packages)
  }
}
