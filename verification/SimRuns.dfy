/**
 * The drain loop of `packages/simulation/src/engine.ts` as a function on captured states, the restore
 * and capture around it, and why draining always ends although most tasks put themselves back: every
 * recurring task reappears strictly later, so the ticks still owed up to the horizon go down, and the
 * tasks that schedule nothing shorten the queue.
 */
module SimRuns {
  import opened Hos
  import HosLaws
  import opened Generators
  import opened SimTypes
  import opened EventQueues
  import opened Simulation

  /** Everything a continuation carries besides its seed and next tick. */
  datatype Core = Core(rng: RngStates, queue: seq<Scheduled>, nextSeq: nat, world: World, nextSequenceId: nat)

  datatype Ran = Ran(core: Core, events: seq<SimEvent>)

  datatype Queued = Queued(queue: seq<Scheduled>, nextSeq: nat)

  /** Each scheduled task takes the next insertion number. */
  function ScheduleAll(q: Queued, spawned: seq<Timed>): (r: Queued)
    ensures r.nextSeq == q.nextSeq + |spawned|
  {
    if spawned == [] then q
    else
      var before := ScheduleAll(q, spawned[..|spawned| - 1]);
      var last := spawned[|spawned| - 1];
      Queued(Insert(before.queue, Scheduled(last.fireTick, before.nextSeq, last.task)), before.nextSeq + 1)
  }

  /** Pop the earliest task, move the clock to its tick and fire it. */
  function Step(env: Env, core: Core): Ran
    requires env.Ok() && core.queue != []
  {
    var head := core.queue[0];
    var e := Fire(env, core.rng, core.world, head.task, head.fireTick);
    var q := ScheduleAll(Queued(core.queue[1..], core.nextSeq), e.spawned);
    Ran(Core(e.rng, q.queue, q.nextSeq, e.world, core.nextSequenceId + |e.events|), e.events)
  }

  // ----- What the queue always holds -------------------------------------------------

  /** Tasks that put themselves, or their trailer's next leg, back into the queue. */
  predicate Recurring(task: SimTask) {
    task.CreatePackageBatch? || task.InductPackage? || task.DepartTrailer? || task.ArriveTrailer?
  }

  /** The tick a task carries is the tick it is queued at. */
  predicate OwnTick(task: SimTask, fireTick: int) {
    match task
    case CreatePackageBatch(tick) => tick == fireTick
    case InductPackage(tick) => tick == fireTick
    case DepartTrailer(_, _, tick) => tick == fireTick
    case ArriveTrailer(_, _, _, _, tick) => tick == fireTick
    case DeliverPackage(_, _, _, tick) => tick == fireTick
    case _ => true
  }

  /** A self-sustaining activity: the batches, the inductions, or one trailer's round trips. */
  datatype Activity = Batches | Inductions | Trips(trailer: TrailerId)

  function ActivityOf(task: SimTask): Activity
    requires Recurring(task)
  {
    match task
    case CreatePackageBatch(_) => Batches
    case InductPackage(_) => Inductions
    case DepartTrailer(t, _, _) => Trips(t)
    case ArriveTrailer(t, _, _, _, _) => Trips(t)
  }

  /** The same activity goes on: a trailer alternates departures and arrivals on its own spoke. */
  predicate Continues(task: SimTask, next: SimTask) {
    match task
    case CreatePackageBatch(_) => next.CreatePackageBatch?
    case InductPackage(_) => next.InductPackage?
    case DepartTrailer(t, spoke, _) => next.ArriveTrailer? && next.trailer == t && next.spoke == spoke
    case ArriveTrailer(t, spoke, _, _, _) => next.DepartTrailer? && next.trailer == t && next.spoke == spoke
    case _ => false
  }

  /**
   * A recurring task schedules one-shot tasks, never in the past, and then exactly one task of its
   * own activity, strictly later; every other task schedules nothing. Only departures schedule stops.
   */
  ghost predicate Reschedules(env: Env, task: SimTask, now: int, spawned: seq<Timed>) {
    if !Recurring(task) then spawned == []
    else
      && (task.InductPackage? && !env.inductionOn ==> spawned == [])
      && (spawned == [] ==> task.InductPackage?)
      && (forall i :: 0 <= i < |spawned| ==> OwnTick(spawned[i].task, spawned[i].fireTick) && now <= spawned[i].fireTick)
      && (forall i :: 0 <= i < |spawned| - 1 ==> !Recurring(spawned[i].task))
      && (!task.DepartTrailer? ==> forall i :: 0 <= i < |spawned| ==> !spawned[i].task.MidLegStops?)
      && (spawned != [] ==>
            var last := spawned[|spawned| - 1];
            Continues(task, last.task) && now < last.fireTick)
  }

  lemma {:induction false} MakePackagesSpawnsNothing(env: Env, e: Effect, count: nat, now: int)
    requires env.Ok()
    ensures MakePackages(env, e, count, now).spawned == e.spawned
  {
    if count > 0 { MakePackagesSpawnsNothing(env, e, count - 1, now); }
  }

  lemma {:induction false} CrossDockSpawnsNothing(e: Effect, packages: seq<PackageId>, now: int)
    ensures CrossDock(e, packages, now).spawned == e.spawned
  {
    if packages != [] { CrossDockSpawnsNothing(e, packages[..|packages| - 1], now); }
  }

  lemma {:induction false} LegPausesAreNonNegative(env: Env, w: Word, d: DriverId, log: seq<DutySegment>, clock: HosClock, now: int)
    requires forall k :: 0 <= k < |log| ==> log[k].minutes > 0
    ensures LegPauses(env, w, d, log, clock, now).extra >= 0
  {
    if log != [] { LegPausesAreNonNegative(env, w, d, log[..|log| - 1], clock, now); }
  }

  /** `after` continues `before` with one-shot tasks other than stops, none of them before `from`. */
  ghost predicate AddsShots(before: seq<Timed>, after: seq<Timed>, from: int) {
    && before <= after
    && forall i :: |before| <= i < |after| ==>
         && !Recurring(after[i].task) && !after[i].task.MidLegStops?
         && OwnTick(after[i].task, after[i].fireTick) && from <= after[i].fireTick
  }

  lemma {:induction false} UnloadAllAddsShots(
    env: Env, e: Effect, carried: seq<PackageId>, held: Option<PackageId>, spoke: Hub, arriveTick: int, now: int)
    ensures AddsShots(e.spawned, UnloadAll(env, e, carried, held, spoke, arriveTick, now).spawned, arriveTick + 1)
  {
    if carried != [] { UnloadAllAddsShots(env, e, carried[..|carried| - 1], held, spoke, arriveTick, now); }
  }

  lemma LaunchSpawnsNothing(env: Env, e: Effect, t: TrailerId, spoke: Hub, now: int)
    requires env.Ok()
    ensures var (a, transit) := Launch(env, e, t, spoke, now);
            a.effect.spawned == e.spawned && a.extra >= 0 && transit >= 1
  {
    hide SelectDriver, LegPauses, DriveLeg, LoadScans;
    var (rolled, transit) := Roll(env, e, t, spoke, now);
    var dispatched := Dispatch(env, rolled, t, e.world.tripCounter + 1, transit, now);
    var read := RfidEffect(env, dispatched, Portal, t, Center, Manifest(e.world.pendingBySpoke, spoke), now);
    if env.hosOn {
      LegPausesExtra(env, read, DriverOf(read.world, t), transit, now);
    }
  }

  lemma LegPausesExtra(env: Env, e: Effect, d: DriverId, transit: nat, now: int)
    requires env.Ok()
    ensures AccrueLeg(env, e, d, transit, now).extra >= 0
  {
    HosLaws.LegTotals(ClockOf(e.world, d), env.hosConfig, transit, now);
    var leg := DriveLeg(ClockOf(e.world, d), env.hosConfig, transit, now);
    LegPausesAreNonNegative(env, e.rng.hos, d, leg.segments, leg.clock, now);
  }

  /** The trip's tasks: possibly its stops on the way, then its arrival, strictly later. */
  lemma UnderwayReschedules(env: Env, a: Accrual, t: TrailerId, spoke: Hub, trip: TripId, loaded: seq<PackageId>,
                            transit: nat, departTick: int)
    requires a.effect.spawned == [] && a.extra >= 0 && transit >= 1
    ensures Reschedules(env, DepartTrailer(t, spoke, departTick), departTick,
                        Underway(env, a, t, spoke, trip, loaded, transit, departTick, departTick).spawned)
  {
    hide AccrueMiles, DriverOf;
  }

  lemma DepartReschedules(env: Env, e: Effect, t: TrailerId, spoke: Hub, departTick: int)
    requires env.Ok() && e.spawned == []
    ensures Reschedules(env, DepartTrailer(t, spoke, departTick), departTick,
                        Depart(env, e, t, spoke, departTick, departTick).spawned)
  {
    hide Launch, Underway, Reschedules;
    LaunchSpawnsNothing(env, e, t, spoke, departTick);
    var (accrued, transit) := Launch(env, e, t, spoke, departTick);
    UnderwayReschedules(env, accrued, t, spoke, e.world.tripCounter + 1, Manifest(e.world.pendingBySpoke, spoke), transit, departTick);
  }

  lemma ArriveReschedules(env: Env, e: Effect, t: TrailerId, spoke: Hub, trip: TripId, carried: seq<PackageId>, arriveTick: int)
    requires env.Ok() && e.spawned == []
    ensures Reschedules(env, ArriveTrailer(t, spoke, trip, carried, arriveTick), arriveTick,
                        Arrive(env, e, t, spoke, trip, carried, arriveTick, arriveTick).spawned)
  {
    hide UnloadPhase, RideOn, Consolidate, Dock, DrawDwell;
    DockSpawnsNothing(env, e, t, spoke, trip, carried, arriveTick);
    var docked := Dock(env, e, t, spoke, trip, carried, arriveTick);
    UnloadPhaseAddsShots(env, docked, t, spoke, trip, carried, arriveTick);
    var (unloaded, held) := UnloadPhase(env, docked, t, spoke, trip, carried, arriveTick, arriveTick);
    RideOnAddsShots(env, unloaded, t, spoke, held, arriveTick);
    var ridden := RideOn(env, unloaded, t, spoke, held, arriveTick, arriveTick);
    ConsolidateAddsShots(env, ridden, t, spoke, arriveTick);
    TurnAroundRecurs(env, Consolidate(env, ridden, t, spoke, arriveTick, arriveTick), t, spoke, arriveTick);
    hide TurnAround;
  }

  lemma DockSpawnsNothing(env: Env, e: Effect, t: TrailerId, spoke: Hub, trip: TripId, carried: seq<PackageId>, now: int)
    ensures Dock(env, e, t, spoke, trip, carried, now).spawned == e.spawned
  {
  }

  lemma TurnAroundRecurs(env: Env, e: Effect, t: TrailerId, spoke: Hub, arriveTick: int)
    ensures exists next :: next > arriveTick
              && TurnAround(env, e, t, spoke, arriveTick).spawned == e.spawned + [Timed(next, DepartTrailer(t, spoke, next))]
  {
    var (timing1, spokeDwell) := DrawDwell(env, e.rng.timing, spoke);
    var (timing2, centerDwell) := DrawDwell(env, timing1, Center);
    var next := arriveTick + spokeDwell + centerDwell;
    assert TurnAround(env, e, t, spoke, arriveTick).spawned == e.spawned + [Timed(next, DepartTrailer(t, spoke, next))];
  }

  lemma UnloadPhaseAddsShots(env: Env, e: Effect, t: TrailerId, spoke: Hub, trip: TripId, carried: seq<PackageId>, arriveTick: int)
    ensures AddsShots(e.spawned, UnloadPhase(env, e, t, spoke, trip, carried, arriveTick, arriveTick).0.spawned, arriveTick + 1)
  {
    hide UnloadAll;
    var (drawn, held) := HoldBack(env, e, carried);
    UnloadAllAddsShots(env, drawn, carried, held, spoke, arriveTick, arriveTick);
  }

  lemma RideOnAddsShots(env: Env, e: Effect, t: TrailerId, spoke: Hub, held: Option<PackageId>, arriveTick: int)
    ensures AddsShots(e.spawned, RideOn(env, e, t, spoke, held, arriveTick, arriveTick).spawned, arriveTick + 1)
  {
  }

  lemma ConsolidateAddsShots(env: Env, e: Effect, t: TrailerId, spoke: Hub, arriveTick: int)
    ensures AddsShots(e.spawned, Consolidate(env, e, t, spoke, arriveTick, arriveTick).spawned, arriveTick + 1)
  {
    hide LoadScans, SortIds;
  }

  /** Whatever fires at its own tick, the queue's recurring activities go on, strictly later. */
  lemma FireReschedules(env: Env, rng: RngStates, world: World, task: SimTask, now: int)
    requires env.Ok() && OwnTick(task, now)
    ensures Reschedules(env, task, now, Fire(env, rng, world, task, now).spawned)
  {
    var e := Effect(rng, world, [], []);
    match task
    case CreatePackageBatch(tick) =>
      var (w', count) := BatchSize(env, e.rng.base);
      MakePackagesSpawnsNothing(env, e.(rng := e.rng.(base := w')), Max(0, count), now);
    case DepartTrailer(t, spoke, departTick) => DepartReschedules(env, e, t, spoke, departTick);
    case ArriveTrailer(t, spoke, trip, carried, arriveTick) =>
      ArriveReschedules(env, e, t, spoke, trip, carried, arriveTick);
    case ArriveConsolidationAtCenter(t, packages, trip) =>
      CrossDockSpawnsNothing(e.Emit(ArrivalEvents(t, Center, trip, now)), packages, now);
    case _ =>
  }

  // ----- Draining ends -----------------------------------------------------------------

  ghost predicate Timely(queue: seq<Scheduled>) {
    forall x :: x in queue ==> OwnTick(x.task, x.fireTick)
  }

  /** The ticks a recurring task still has to go before the horizon. */
  function TicksLeft(task: SimTask, fireTick: int, horizon: int): nat {
    if Recurring(task) && fireTick <= horizon then horizon + 1 - fireTick else 0
  }

  function QueueTicksLeft(queue: seq<Scheduled>, horizon: int): nat {
    if queue == [] then 0
    else TicksLeft(queue[0].task, queue[0].fireTick, horizon) + QueueTicksLeft(queue[1..], horizon)
  }

  function SpawnTicksLeft(spawned: seq<Timed>, horizon: int): nat {
    if spawned == [] then 0
    else SpawnTicksLeft(spawned[..|spawned| - 1], horizon)
         + TicksLeft(spawned[|spawned| - 1].task, spawned[|spawned| - 1].fireTick, horizon)
  }

  lemma {:induction false} InsertTicksLeft(queue: seq<Scheduled>, x: Scheduled, horizon: int)
    ensures QueueTicksLeft(Insert(queue, x), horizon)
            == QueueTicksLeft(queue, horizon) + TicksLeft(x.task, x.fireTick, horizon)
  {
    if queue == [] {
    } else if Before(x, queue[0]) {
      assert ([x] + queue)[1..] == queue;
    } else {
      InsertTicksLeft(queue[1..], x, horizon);
      assert ([queue[0]] + Insert(queue[1..], x))[1..] == Insert(queue[1..], x);
    }
  }

  lemma {:induction false} ScheduleAllTicksLeft(q: Queued, spawned: seq<Timed>, horizon: int)
    ensures var r := ScheduleAll(q, spawned);
            && QueueTicksLeft(r.queue, horizon) == QueueTicksLeft(q.queue, horizon) + SpawnTicksLeft(spawned, horizon)
            && |r.queue| == |q.queue| + |spawned|
  {
    if spawned != [] {
      var init, last := spawned[..|spawned| - 1], spawned[|spawned| - 1];
      ScheduleAllTicksLeft(q, init, horizon);
      var before := ScheduleAll(q, init);
      InsertTicksLeft(before.queue, Scheduled(last.fireTick, before.nextSeq, last.task), horizon);
    }
  }

  lemma {:induction false} ScheduleAllTimely(q: Queued, spawned: seq<Timed>)
    requires Timely(q.queue) && forall i :: 0 <= i < |spawned| ==> OwnTick(spawned[i].task, spawned[i].fireTick)
    ensures Timely(ScheduleAll(q, spawned).queue)
  {
    if spawned != [] {
      var init, last := spawned[..|spawned| - 1], spawned[|spawned| - 1];
      ScheduleAllTimely(q, init);
      var before := ScheduleAll(q, init);
      InsertMembers(before.queue, Scheduled(last.fireTick, before.nextSeq, last.task));
    }
  }

  lemma {:induction false} ShotsHaveNoTicksLeft(spawned: seq<Timed>, horizon: int)
    requires forall i :: 0 <= i < |spawned| ==> !Recurring(spawned[i].task)
    ensures SpawnTicksLeft(spawned, horizon) == 0
  {
    if spawned != [] { ShotsHaveNoTicksLeft(spawned[..|spawned| - 1], horizon); }
  }

  /** What one task schedules costs strictly less than the task itself, if the task recurs. */
  lemma SpawnCostsLess(env: Env, task: SimTask, now: int, spawned: seq<Timed>, horizon: int)
    requires Reschedules(env, task, now, spawned) && now <= horizon
    ensures SpawnTicksLeft(spawned, horizon) <= TicksLeft(task, now, horizon)
    ensures Recurring(task) ==> SpawnTicksLeft(spawned, horizon) < TicksLeft(task, now, horizon)
  {
    if spawned != [] { ShotsHaveNoTicksLeft(spawned[..|spawned| - 1], horizon); }
  }

  /**
   * Firing the head lowers the pair (ticks the recurring tasks have left, tasks queued): the
   * queue refills itself, but never forever within a horizon.
   */
  lemma StepTerminates(env: Env, core: Core, horizon: int)
    requires env.Ok() && Timely(core.queue) && core.queue != [] && core.queue[0].fireTick <= horizon
    ensures var next := Step(env, core).core;
            && Timely(next.queue)
            && (QueueTicksLeft(next.queue, horizon) < QueueTicksLeft(core.queue, horizon)
                || (QueueTicksLeft(next.queue, horizon) == QueueTicksLeft(core.queue, horizon)
                    && |next.queue| < |core.queue|))
  {
    hide Fire;
    var head := core.queue[0];
    FireReschedules(env, core.rng, core.world, head.task, head.fireTick);
    var e := Fire(env, core.rng, core.world, head.task, head.fireTick);
    SpawnCostsLess(env, head.task, head.fireTick, e.spawned, horizon);
    ScheduleAllTicksLeft(Queued(core.queue[1..], core.nextSeq), e.spawned, horizon);
    ScheduleAllTimely(Queued(core.queue[1..], core.nextSeq), e.spawned);
  }

  /** Fire every task up to and including the horizon, in queue order. */
  function Drain(env: Env, core: Core, horizon: int): (r: Ran)
    requires env.Ok() && Timely(core.queue)
    ensures Timely(r.core.queue)
    decreases QueueTicksLeft(core.queue, horizon), |core.queue|
  {
    if core.queue == [] || core.queue[0].fireTick > horizon then Ran(core, [])
    else
      StepTerminates(env, core, horizon);
      var first := Step(env, core);
      var rest := Drain(env, first.core, horizon);
      Ran(rest.core, first.events + rest.events)
  }

  // ----- Restore, bootstrap, capture -------------------------------------------------------

  const RFID_RNG_SALT: Word := 0x5f1da7c3
  const OVER_CARRY_RNG_SALT: Word := 0x3ca71d5f
  const TIMING_RNG_SALT: Word := 0x00007717
  const HOS_RNG_SALT: Word := 0x10510901
  const FUEL_RNG_SALT: Word := 0x2b3d91e7
  const INDUCTION_RNG_SALT: Word := 0x8f2c4ae1
  const OUTBOUND_RNG_SALT: Word := 0xc4f832b6

  function Seeded(env: Env, seed: Word, salt: Word): Word { env.generator.mix(seed ^ salt) }

  function RestoredOr(on: bool, word: Option<Word>, seeded: Word): Option<Word> {
    if !on then None else if word.Some? then word else Some(seeded)
  }

  /** Trailers and drivers are numbered from one. */
  predicate IsId(id: nat, count: nat) { 1 <= id <= count }

  /** Spokes that are missing from a restored manifest map start empty. */
  function WithSpokes(env: Env, m: map<Hub, seq<PackageId>>): map<Hub, seq<PackageId>> {
    (map i: nat | 0 <= i < env.spokeCount :: Spoke(i) := []) + m
  }

  /** The roster loop: it runs on every start, and with fuel on it sets every odometer to zero. */
  function RosterOdometers(env: Env, odometer: map<TrailerId, real>): map<TrailerId, real> {
    if env.fuelOn then odometer + (map t: nat | t <= env.TrailerCount() && IsId(t, env.TrailerCount()) :: t := 0.0) else odometer
  }

  function Restore(env: Env, c: Continuation): Core {
    Core(
      c.rng.(fuel := RestoredOr(env.fuelOn, c.rng.fuel, Seeded(env, c.seed, FUEL_RNG_SALT)),
             induction := RestoredOr(env.inductionOn, c.rng.induction, Seeded(env, c.seed, INDUCTION_RNG_SALT)),
             outbound := RestoredOr(env.outboundOn, c.rng.outbound, Seeded(env, c.seed, OUTBOUND_RNG_SALT))),
      Sort(c.queue),
      c.nextSeq,
      c.world.(pendingBySpoke := WithSpokes(env, c.world.pendingBySpoke),
               pendingAtSpoke := WithSpokes(env, c.world.pendingAtSpoke),
               odometer := RosterOdometers(env, c.world.odometer)),
      c.nextSequenceId)
  }

  function Capture(core: Core, seed: Word, horizon: int): Continuation {
    Continuation(seed, horizon + 1, core.rng, core.queue, core.nextSeq, core.world, core.nextSequenceId)
  }

  function SpareCount(env: Env): nat { RELAY_SPARE_DRIVERS * env.fleetPerSpoke }

  function FreshRng(env: Env, seed: Word): RngStates {
    RngStates(
      env.generator.mix(seed),
      Seeded(env, seed, RFID_RNG_SALT),
      Seeded(env, seed, OVER_CARRY_RNG_SALT),
      Seeded(env, seed, TIMING_RNG_SALT),
      Seeded(env, seed, HOS_RNG_SALT),
      if env.fuelOn then Some(Seeded(env, seed, FUEL_RNG_SALT)) else None,
      if env.inductionOn then Some(Seeded(env, seed, INDUCTION_RNG_SALT)) else None,
      if env.outboundOn then Some(Seeded(env, seed, OUTBOUND_RNG_SALT)) else None)
  }

  function Bindings(n: nat): map<TrailerId, DriverId> { map t: nat | t <= n && IsId(t, n) :: t := t }

  function FreshClocks(n: nat): map<DriverId, HosClock> { map d: nat | d <= n && IsId(d, n) :: d := FreshHosClock(0) }

  function FreshAvailability(n: nat): map<DriverId, int> { map d: nat | d <= n && IsId(d, n) :: d := 0 }

  function Spares(trailers: nat, n: nat): seq<DriverId> { seq(n, i requires i >= 0 => trailers + i + 1) }

  /** Drivers are numbered: one bound to each trailer, then the spares. */
  function FreshWorld(env: Env): World {
    var drivers := if env.hosOn then env.TrailerCount() + SpareCount(env) else 0;
    World(
      WithSpokes(env, map[]), WithSpokes(env, map[]), map[], RosterOdometers(env, map[]),
      if env.hosOn then Bindings(env.TrailerCount()) else map[],
      FreshClocks(drivers),
      FreshAvailability(drivers),
      if env.hosOn then Spares(env.TrailerCount(), SpareCount(env)) else [],
      0, 0, 0, 0, map[])
  }

  function HubEvents(spokes: nat, now: int): seq<SimEvent> {
    [SimEvent(HubStream(Center), HubRegistered(Center), now)]
    + seq(spokes, i requires i >= 0 => SimEvent(HubStream(Spoke(i)), HubRegistered(Spoke(i)), now))
  }

  function RouteEvents(routes: seq<(Hub, Hub)>, now: int): seq<SimEvent> {
    seq(|routes|, i requires 0 <= i < |routes| =>
      SimEvent(RouteStream(routes[i].0, routes[i].1), RouteRegistered(routes[i].0, routes[i].1), now))
  }

  function NetworkEvents(env: Env, now: int): seq<SimEvent> { HubEvents(env.spokeCount, now) + RouteEvents(env.routes, now) }

  function DriverEvents(n: nat, now: int): seq<SimEvent> {
    seq(n, i requires i >= 0 => OnDriver(i + 1, DriverRegistered(i + 1), now))
  }

  function BootstrapEvents(env: Env): seq<SimEvent> {
    NetworkEvents(env, 0) + if env.hosOn then DriverEvents(env.TrailerCount() + SpareCount(env), 0) else []
  }

  /** Slot 0 leaves at tick 1; each further fleet slot leaves seven ticks later. */
  function RosterDeparture(env: Env, k: nat): Timed
    requires env.Ok()
  {
    var departTick := 1 + (k / env.spokeCount) * TRAILER_STAGGER_TICKS;
    Timed(departTick, DepartTrailer(k + 1, Spoke(k % env.spokeCount), departTick))
  }

  function RosterDepartures(env: Env, n: nat): seq<Timed>
    requires env.Ok()
  {
    if n == 0 then [] else RosterDepartures(env, n - 1) + [RosterDeparture(env, n - 1)]
  }

  function InitialSchedule(env: Env): seq<Timed>
    requires env.Ok()
  {
    [Timed(0, CreatePackageBatch(0))] + RosterDepartures(env, env.TrailerCount())
    + if env.inductionOn then [Timed(INDUCTION_START_TICK, InductPackage(INDUCTION_START_TICK))] else []
  }

  function Bootstrap(env: Env, seed: Word): Ran
    requires env.Ok()
  {
    var q := ScheduleAll(Queued([], 0), InitialSchedule(env));
    var events := BootstrapEvents(env);
    Ran(Core(FreshRng(env, seed), q.queue, q.nextSeq, FreshWorld(env), |events|), events)
  }

  lemma {:induction false} RosterDeparturesTimely(env: Env, n: nat)
    requires env.Ok()
    ensures |RosterDepartures(env, n)| == n
    ensures forall i :: 0 <= i < n ==> RosterDepartures(env, n)[i] == RosterDeparture(env, i)
  {
    if n > 0 { RosterDeparturesTimely(env, n - 1); }
  }

  lemma BootstrapTimely(env: Env, seed: Word)
    requires env.Ok()
    ensures Timely(Bootstrap(env, seed).core.queue)
  {
    RosterDeparturesTimely(env, env.TrailerCount());
    ScheduleAllTimely(Queued([], 0), InitialSchedule(env));
  }

  function SeedOf(start: SimStart): Word {
    match start
    case FreshStart(seed) => seed
    case Resume(c) => c.seed
  }

  /** A start is a seed, or a continuation whose queued tasks carry their own ticks. */
  ghost predicate Startable(start: SimStart) {
    start.Resume? ==> Timely(start.continuation.queue)
  }

  lemma RestoredTimely(env: Env, c: Continuation)
    requires Timely(c.queue)
    ensures Timely(Restore(env, c).queue)
  {
    hide Sort;
    forall x | x in Sort(c.queue) ensures x in c.queue { assert x in multiset(Sort(c.queue)); }
  }

  function Begin(env: Env, start: SimStart): (r: Ran)
    requires env.Ok() && Startable(start)
    ensures Timely(r.core.queue)
  {
    match start
    case FreshStart(seed) => BootstrapTimely(env, seed); Bootstrap(env, seed)
    case Resume(c) => RestoredTimely(env, c); Ran(Restore(env, c), [])
  }

  datatype RunResult = RunResult(events: seq<SimEvent>, continuation: Continuation)

  /** `runToHorizon`. */
  function RunToHorizon(env: Env, start: SimStart, horizon: nat): RunResult
    requires env.Ok() && Startable(start)
  {
    var begun := Begin(env, start);
    var drained := Drain(env, begun.core, horizon);
    RunResult(begun.events + drained.events, Capture(drained.core, SeedOf(start), horizon))
  }
}
