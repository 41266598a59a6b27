/**
 * Cutting a run and resuming it from the captured continuation: the keystone claim of the
 * resumable simulator, and the one flag that breaks it.
 */
module SimChunks {
  import opened Generators
  import opened SimTypes
  import opened EventQueues
  import opened Simulation
  import opened SimRuns

  // ----- What restoring takes for granted -----------------------------------------------

  ghost predicate HasSpokes(env: Env, m: map<Hub, seq<PackageId>>) {
    forall h :: env.IsSpoke(h) ==> h in m
  }

  predicate SubstreamsMatch(env: Env, rng: RngStates) {
    && (rng.fuel.Some? <==> env.fuelOn)
    && (rng.induction.Some? <==> env.inductionOn)
    && (rng.outbound.Some? <==> env.outboundOn)
  }

  ghost predicate Settled(env: Env, core: Core) {
    && Sorted(core.queue)
    && Numbered(core.queue, core.nextSeq)
    && Timely(core.queue)
    && HasSpokes(env, core.world.pendingBySpoke)
    && HasSpokes(env, core.world.pendingAtSpoke)
    && SubstreamsMatch(env, core.rng)
  }

  // ----- Every task keeps it --------------------------------------------------------------

  ghost predicate KeepsShape(e: Effect, r: Effect) {
    && e.world.pendingBySpoke.Keys <= r.world.pendingBySpoke.Keys
    && e.world.pendingAtSpoke.Keys <= r.world.pendingAtSpoke.Keys
    && r.rng.fuel.Some? == e.rng.fuel.Some?
    && r.rng.induction.Some? == e.rng.induction.Some?
    && r.rng.outbound.Some? == e.rng.outbound.Some?
    && e.world.tripCounter <= r.world.tripCounter
  }

  lemma {:induction false} MakePackagesKeepsShape(env: Env, e: Effect, count: nat, now: int)
    requires env.Ok()
    ensures KeepsShape(e, MakePackages(env, e, count, now))
  {
    if count > 0 { MakePackagesKeepsShape(env, e, count - 1, now); }
  }

  lemma {:induction false} UnloadAllKeepsShape(
    env: Env, e: Effect, carried: seq<PackageId>, held: Option<PackageId>, spoke: Hub, arriveTick: int, now: int)
    ensures KeepsShape(e, UnloadAll(env, e, carried, held, spoke, arriveTick, now))
  {
    if carried != [] { UnloadAllKeepsShape(env, e, carried[..|carried| - 1], held, spoke, arriveTick, now); }
  }

  lemma {:induction false} CrossDockKeepsShape(e: Effect, packages: seq<PackageId>, now: int)
    ensures KeepsShape(e, CrossDock(e, packages, now))
  {
    if packages != [] { CrossDockKeepsShape(e, packages[..|packages| - 1], now); }
  }

  lemma DispatchKeepsShape(env: Env, e: Effect, t: TrailerId, trip: TripId, transit: int, now: int)
    ensures KeepsShape(e, Dispatch(env, e, t, trip, transit, now))
  {
    hide FirstFree, LegalMinutes, RemoveFirst, ClockOf;
  }

  lemma DriveOutKeepsShape(env: Env, e: Effect, t: TrailerId, transit: nat, now: int)
    requires env.Ok()
    ensures KeepsShape(e, DriveOut(env, e, t, transit, now).effect)
  {
    hide LegPauses;
  }

  lemma RfidKeepsShape(env: Env, e: Effect, reader: ReaderType, t: TrailerId, hub: Hub, packages: seq<PackageId>, now: int)
    ensures KeepsShape(e, RfidEffect(env, e, reader, t, hub, packages, now))
  {
  }

  lemma RollKeepsShape(env: Env, e: Effect, t: TrailerId, spoke: Hub, now: int)
    ensures KeepsShape(e, Roll(env, e, t, spoke, now).0)
  {
    hide LoadScans;
  }

  lemma DepartKeepsShape(env: Env, e: Effect, t: TrailerId, spoke: Hub, departTick: int, now: int)
    requires env.Ok()
    ensures KeepsShape(e, Depart(env, e, t, spoke, departTick, now))
  {
    hide Roll, Dispatch, RfidEffect, DriveOut, Underway, Manifest;
    RollKeepsShape(env, e, t, spoke, now);
    var (rolled, transit) := Roll(env, e, t, spoke, now);
    var trip, loaded := e.world.tripCounter + 1, Manifest(e.world.pendingBySpoke, spoke);
    DispatchKeepsShape(env, rolled, t, trip, transit, now);
    var dispatched := Dispatch(env, rolled, t, trip, transit, now);
    RfidKeepsShape(env, dispatched, Portal, t, Center, loaded, now);
    var read := RfidEffect(env, dispatched, Portal, t, Center, loaded, now);
    DriveOutKeepsShape(env, read, t, transit, now);
    UnderwayKeepsShape(env, DriveOut(env, read, t, transit, now), t, spoke, trip, loaded, transit, departTick, now);
  }

  lemma UnderwayKeepsShape(env: Env, a: Accrual, t: TrailerId, spoke: Hub, trip: TripId, loaded: seq<PackageId>,
                           transit: nat, departTick: int, now: int)
    ensures KeepsShape(a.effect, Underway(env, a, t, spoke, trip, loaded, transit, departTick, now))
  {
    hide AccrueMiles, DriverOf;
    MilesTouchOnlyTheOdometer(env, a.effect.world, t, spoke);
  }

  lemma ArriveKeepsShape(env: Env, e: Effect, t: TrailerId, spoke: Hub, trip: TripId, carried: seq<PackageId>, tick: int, now: int)
    ensures KeepsShape(e, Arrive(env, e, t, spoke, trip, carried, tick, now))
  {
    var docked := Dock(env, e, t, spoke, trip, carried, now);
    assert KeepsShape(e, docked);
    UnloadPhaseKeepsShape(env, docked, t, spoke, trip, carried, tick, now);
    var (unloaded, held) := UnloadPhase(env, docked, t, spoke, trip, carried, tick, now);
    RideOnKeepsShape(env, unloaded, t, spoke, held, tick, now);
    var ridden := RideOn(env, unloaded, t, spoke, held, tick, now);
    ConsolidateKeepsShape(env, ridden, t, spoke, tick, now);
    hide Dock, UnloadPhase, RideOn, Consolidate;
  }

  lemma UnloadPhaseKeepsShape(env: Env, e: Effect, t: TrailerId, spoke: Hub, trip: TripId, carried: seq<PackageId>, tick: int, now: int)
    ensures KeepsShape(e, UnloadPhase(env, e, t, spoke, trip, carried, tick, now).0)
  {
    hide UnloadAll;
    var (drawn, held) := HoldBack(env, e, carried);
    UnloadAllKeepsShape(env, drawn, carried, held, spoke, tick, now);
  }

  lemma RideOnKeepsShape(env: Env, e: Effect, t: TrailerId, spoke: Hub, held: Option<PackageId>, tick: int, now: int)
    ensures KeepsShape(e, RideOn(env, e, t, spoke, held, tick, now))
  {
  }

  lemma ConsolidateKeepsShape(env: Env, e: Effect, t: TrailerId, spoke: Hub, tick: int, now: int)
    ensures KeepsShape(e, Consolidate(env, e, t, spoke, tick, now))
  {
    hide LoadScans, SortIds;
  }

  lemma FireKeepsShape(env: Env, rng: RngStates, world: World, task: SimTask, now: int)
    requires env.Ok()
    ensures KeepsShape(Effect(rng, world, [], []), Fire(env, rng, world, task, now))
  {
    var e := Effect(rng, world, [], []);
    match task
    case CreatePackageBatch(tick) =>
      var (w', count) := BatchSize(env, e.rng.base);
      MakePackagesKeepsShape(env, e.(rng := e.rng.(base := w')), Hos.Max(0, count), now);
    case DepartTrailer(t, spoke, departTick) =>
      hide Depart;
      DepartKeepsShape(env, e, t, spoke, departTick, now);
    case ArriveTrailer(t, spoke, trip, carried, arriveTick) =>
      hide Arrive;
      ArriveKeepsShape(env, e, t, spoke, trip, carried, arriveTick, now);
    case ArriveConsolidationAtCenter(t, packages, trip) =>
      CrossDockKeepsShape(e.Emit(ArrivalEvents(t, Center, trip, now)), packages, now);
    case _ =>
  }

  /** Scheduling keeps the queue ordered and its insertion numbers unique. */
  lemma {:induction false} ScheduleAllOrdered(q: Queued, spawned: seq<Timed>)
    requires Sorted(q.queue) && Numbered(q.queue, q.nextSeq)
    ensures var r := ScheduleAll(q, spawned); Sorted(r.queue) && Numbered(r.queue, r.nextSeq)
  {
    if spawned != [] {
      ScheduleAllOrdered(q, spawned[..|spawned| - 1]);
      var before := ScheduleAll(q, spawned[..|spawned| - 1]);
      var last := spawned[|spawned| - 1];
      var x := Scheduled(last.fireTick, before.nextSeq, last.task);
      InsertSorted(before.queue, x);
      InsertNumbered(before.queue, x, before.nextSeq + 1);
    }
  }

  lemma StepSettled(env: Env, core: Core)
    requires env.Ok() && Settled(env, core) && core.queue != []
    ensures Settled(env, Step(env, core).core)
  {
    hide Fire;
    var head := core.queue[0];
    FireKeepsShape(env, core.rng, core.world, head.task, head.fireTick);
    ScheduleAllOrdered(Queued(core.queue[1..], core.nextSeq), Fire(env, core.rng, core.world, head.task, head.fireTick).spawned);
    StepTerminates(env, core, head.fireTick);
  }

  lemma {:induction false} DrainSettled(env: Env, core: Core, horizon: int)
    requires env.Ok() && Settled(env, core)
    ensures Settled(env, Drain(env, core, horizon).core)
    decreases QueueTicksLeft(core.queue, horizon), |core.queue|
  {
    if core.queue != [] && core.queue[0].fireTick <= horizon {
      StepTerminates(env, core, horizon);
      StepSettled(env, core);
      hide Settled, Step;
      DrainSettled(env, Step(env, core).core, horizon);
    }
  }

  lemma BootstrapSettled(env: Env, seed: Word)
    requires env.Ok()
    ensures Settled(env, Bootstrap(env, seed).core)
  {
    BootstrapTimely(env, seed);
    ScheduleAllOrdered(Queued([], 0), InitialSchedule(env));
    WithSpokesHasSpokes(env, map[]);
  }

  lemma WithSpokesHasSpokes(env: Env, m: map<Hub, seq<PackageId>>)
    ensures HasSpokes(env, WithSpokes(env, m))
    ensures HasSpokes(env, m) ==> WithSpokes(env, m) == m
  {
    forall h | env.IsSpoke(h) ensures h in WithSpokes(env, m) {
      assert h == Spoke(h.index);
    }
    if HasSpokes(env, m) {
      assert forall i: nat :: i < env.spokeCount ==> env.IsSpoke(Spoke(i));
    }
  }

  // ----- Draining to a later horizon ----------------------------------------------------------

  /** Draining to a horizon and then on to a later one is draining to the later one. */
  lemma {:induction false} DrainInTwo(env: Env, core: Core, h1: int, h2: int)
    requires env.Ok() && Timely(core.queue) && h1 <= h2
    ensures var first := Drain(env, core, h1);
            var rest := Drain(env, first.core, h2);
            Drain(env, core, h2) == Ran(rest.core, first.events + rest.events)
    decreases QueueTicksLeft(core.queue, h1), |core.queue|
  {
    hide Step, Timely, QueueTicksLeft;
    if core.queue == [] || core.queue[0].fireTick > h1 {
      var rest := Drain(env, core, h2);
      assert [] + rest.events == rest.events;
    } else {
      StepTerminates(env, core, h1);
      StepTerminates(env, core, h2);
      var one := Step(env, core);
      DrainInTwo(env, one.core, h1, h2);
      var first := Drain(env, one.core, h1);
      assert one.events + (first.events + Drain(env, first.core, h2).events)
          == (one.events + first.events) + Drain(env, first.core, h2).events;
    }
  }

  // ----- Restoring what was captured --------------------------------------------------------------

  /** The roster loop leaves the odometers alone exactly when they are already what it writes. */
  predicate OdometersAtZero(env: Env, w: World) {
    env.fuelOn ==> forall t: nat | t <= env.TrailerCount() && IsId(t, env.TrailerCount()) :: t in w.odometer && w.odometer[t] == 0.0
  }

  /** Restoring a captured state gives that state back, except for what the roster loop overwrites. */
  lemma RestoreUndoesCapture(env: Env, core: Core, seed: Word, horizon: int)
    requires Settled(env, core)
    ensures Restore(env, Capture(core, seed, horizon)) == core.(world := core.world.(odometer := RosterOdometers(env, core.world.odometer)))
    ensures Restore(env, Capture(core, seed, horizon)) == core <==> OdometersAtZero(env, core.world)
  {
    SortOfSorted(core.queue);
    WithSpokesHasSpokes(env, core.world.pendingBySpoke);
    WithSpokesHasSpokes(env, core.world.pendingAtSpoke);
    if env.fuelOn {
      var m := RosterOdometers(env, core.world.odometer);
      if OdometersAtZero(env, core.world) {
        assert m == core.world.odometer;
      } else {
        var t: nat :| t <= env.TrailerCount() && IsId(t, env.TrailerCount())
                      && !(t in core.world.odometer && core.world.odometer[t] == 0.0);
        assert t in m && m[t] == 0.0;
      }
    }
  }

  // ----- Chunked runs ---------------------------------------------------------------------------------

  /** A fresh seed, or a continuation some earlier run may have captured. */
  ghost predicate Genuine(env: Env, start: SimStart)
    requires env.Ok()
  {
    match start
    case FreshStart(_) => true
    case Resume(c) => Timely(c.queue) && Settled(env, Restore(env, c))
  }

  lemma BeginSettled(env: Env, start: SimStart)
    requires env.Ok() && Genuine(env, start)
    ensures Startable(start) && Settled(env, Begin(env, start).core)
  {
    if start.FreshStart? { BootstrapSettled(env, start.seed); }
  }

  /** A continuation captured by a run is a genuine start. */
  lemma RunIsGenuine(env: Env, start: SimStart, horizon: nat)
    requires env.Ok() && Genuine(env, start)
    ensures Startable(start) && Genuine(env, Resume(RunToHorizon(env, start, horizon).continuation))
  {
    BeginSettled(env, start);
    var drained := Drain(env, Begin(env, start).core, horizon);
    DrainSettled(env, Begin(env, start).core, horizon);
    RestoreUndoesCapture(env, drained.core, SeedOf(start), horizon);
  }

  ghost predicate Ascending(horizons: seq<nat>) {
    forall i, j :: 0 <= i < j < |horizons| ==> horizons[i] <= horizons[j]
  }

  /** Run to each horizon in turn, resuming each time from the continuation just captured. */
  ghost function RunInChunks(env: Env, start: SimStart, horizons: seq<nat>): RunResult
    requires env.Ok() && Genuine(env, start) && horizons != []
    decreases |horizons|
  {
    RunIsGenuine(env, start, horizons[0]);
    var first := RunToHorizon(env, start, horizons[0]);
    if |horizons| == 1 then first
    else
      var rest := RunInChunks(env, Resume(first.continuation), horizons[1..]);
      RunResult(first.events + rest.events, rest.continuation)
  }

  /** One cut at a point where the roster loop changes nothing. */
  lemma OneCut(env: Env, start: SimStart, h1: nat, h2: nat)
    requires env.Ok() && Genuine(env, start) && h1 <= h2
    ensures Startable(start) && Genuine(env, Resume(RunToHorizon(env, start, h1).continuation))
    ensures var first := RunToHorizon(env, start, h1);
            OdometersAtZero(env, first.continuation.world) ==>
              var rest := RunToHorizon(env, Resume(first.continuation), h2);
              RunToHorizon(env, start, h2) == RunResult(first.events + rest.events, rest.continuation)
  {
    hide Drain, Restore, Settled, Bootstrap, OdometersAtZero, RosterOdometers;
    BeginSettled(env, start);
    RunIsGenuine(env, start, h1);
    var begun := Begin(env, start);
    DrainInTwo(env, begun.core, h1, h2);
    DrainSettled(env, begun.core, h1);
    var drained := Drain(env, begun.core, h1);
    RestoreUndoesCapture(env, drained.core, SeedOf(start), h1);
    var rest := Drain(env, drained.core, h2);
    assert begun.events + (drained.events + rest.events) == (begun.events + drained.events) + ([] + rest.events);
  }

  /**
   * With fuel off, a run cut at any ascending list of horizons emits, concatenated, exactly the
   * events of the uncut run and ends in the same continuation: for every seed or genuine start,
   * every generator, and every combination of the other flags.
   */
  lemma {:induction false} ChunkedRunIsWholeRun(env: Env, start: SimStart, horizons: seq<nat>)
    requires env.Ok() && Genuine(env, start) && !env.fuelOn
    requires horizons != [] && Ascending(horizons)
    ensures Startable(start)
    ensures RunInChunks(env, start, horizons) == RunToHorizon(env, start, horizons[|horizons| - 1])
    decreases |horizons|
  {
    BeginSettled(env, start);
    hide RunToHorizon, Genuine, Settled;
    if |horizons| > 1 {
      var last := horizons[|horizons| - 1];
      OneCut(env, start, horizons[0], last);
      RunIsGenuine(env, start, horizons[0]);
      ChunkedRunIsWholeRun(env, Resume(RunToHorizon(env, start, horizons[0]).continuation), horizons[1..]);
    }
  }

  /**
   * Fuel or no fuel, a cut is invisible to every later horizon exactly when the roster loop finds
   * every odometer at zero: with fuel on that loop runs on a resume too and forgets the miles.
   */
  lemma CutIsInvisibleIff(env: Env, start: SimStart, h1: nat)
    requires env.Ok() && Genuine(env, start)
    ensures Startable(start)
    ensures (forall h2: nat :: h1 <= h2 ==> RunInChunks(env, start, [h1, h2]) == RunToHorizon(env, start, h2))
            <==> OdometersAtZero(env, RunToHorizon(env, start, h1).continuation.world)
  {
    BeginSettled(env, start);
    RunIsGenuine(env, start, h1);
    var first := RunToHorizon(env, start, h1);
    forall h2: nat | h1 <= h2
      ensures RunInChunks(env, start, [h1, h2])
              == var rest := RunToHorizon(env, Resume(first.continuation), h2);
                 RunResult(first.events + rest.events, rest.continuation)
    {
      assert [h1, h2][1..] == [h2];
    }
    if OdometersAtZero(env, first.continuation.world) {
      forall h2: nat | h1 <= h2 ensures RunInChunks(env, start, [h1, h2]) == RunToHorizon(env, start, h2) {
        OneCut(env, start, h1, h2);
      }
    } else {
      ResumeToSameHorizon(env, start, h1);
      assert RunInChunks(env, start, [h1, h1]) != first;
    }
  }

  /** Resuming to the horizon just reached fires nothing, but the roster loop has already run. */
  lemma ResumeToSameHorizon(env: Env, start: SimStart, h: nat)
    requires env.Ok() && Genuine(env, start)
    ensures Startable(start) && Genuine(env, Resume(RunToHorizon(env, start, h).continuation))
    ensures var c := RunToHorizon(env, start, h).continuation;
            RunToHorizon(env, Resume(c), h) == RunResult([], c.(world := c.world.(odometer := RosterOdometers(env, c.world.odometer))))
    ensures var c := RunToHorizon(env, start, h).continuation;
            RunToHorizon(env, Resume(c), h).continuation == c <==> OdometersAtZero(env, c.world)
  {
    BeginSettled(env, start);
    RunIsGenuine(env, start, h);
    DrainInTwo(env, Begin(env, start).core, h, h);
    var drained := Drain(env, Begin(env, start).core, h);
    DrainSettled(env, Begin(env, start).core, h);
    DrainStops(env, Begin(env, start).core, h);
    RestoreUndoesCapture(env, drained.core, SeedOf(start), h);
  }

  /** After a drain nothing queued is due. */
  lemma {:induction false} DrainStops(env: Env, core: Core, horizon: int)
    requires env.Ok() && Timely(core.queue)
    ensures var q := Drain(env, core, horizon).core.queue; q == [] || q[0].fireTick > horizon
    decreases QueueTicksLeft(core.queue, horizon), |core.queue|
  {
    if core.queue != [] && core.queue[0].fireTick <= horizon {
      StepTerminates(env, core, horizon);
      DrainStops(env, Step(env, core).core, horizon);
    }
  }
}
