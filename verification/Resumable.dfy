/**
 * `runToHorizon` end to end: restore or bootstrap, drain, capture, on mutable objects, and the
 * proof that whatever it captures it can resume from.
 */
module Resumable {
  import opened Generators
  import opened SimTypes
  import opened EventQueues
  import opened Clocks
  import opened Simulation
  import opened SimRuns
  import opened SimChunks
  import opened SimBooks
  import opened Engine
  import SimFreight
  import SimTimeline

  /** Milliseconds of the simulation epoch, 2026-04-01T00:00:00.000Z. */
  const EPOCH_MS := 1_775_001_600_000

  /** A continuation as a run captures it: ordered, and in the books of some safe state. */
  ghost predicate CanResume(env: Env, c: Continuation) {
    && Sorted(c.queue) && Numbered(c.queue, c.nextSeq) && Timely(c.queue)
    && exists h: History :: h.core == Restore(env, c) && Safe(env, h) && 0 <= SimTimeline.Now(h)
  }

  datatype Outcome = Finished(result: RunResult) | HorizonRangeError

  const EMPTY_WORLD := World(map[], map[], map[], map[], map[], map[], map[], [], 0, 0, 0, 0, map[])

  /** A queue, a clock at the epoch, and an engine over them. */
  method Assemble(env: Env, items: seq<Scheduled>, nextSeq: nat, core: Core) returns (engine: SimEngine)
    requires env.Ok() && Numbered(items, nextSeq)
    ensures fresh(engine) && fresh(engine.queue) && fresh(engine.clock) && engine.env == env
    ensures engine.Ready() && engine.Valid() && engine.Idle() && engine.out == [] && engine.foundOut == []
    ensures engine.foundSequenceId == engine.nextSequenceId == core.nextSequenceId
    ensures engine.foundQueue == engine.Pending() == Queued(Sort(items), nextSeq)
    ensures engine.clock.Tick() == 0 && engine.rng == core.rng && engine.world == core.world
  {
    hide SimEngine.Valid, VirtualClock.Valid, VirtualClock.Tick, Sort;
    var queue := new EventQueue(items, nextSeq);
    var clock := new VirtualClock(EPOCH_MS, MS_PER_TICK);
    engine := new SimEngine(env, queue, clock, core);
    OpenBooks(engine);
  }

  /** The bootstrap of a fresh run: the network, the drivers if any, and the first tasks. */
  method Populate(engine: SimEngine, env: Env)
    requires engine.env == env && engine.Ready() && engine.Valid() && engine.Idle() && engine.clock.Tick() == 0
    requires engine.world == EMPTY_WORLD
    modifies engine, engine.queue
    ensures engine.Valid()
    ensures engine.world == FreshWorld(env) && engine.emitted == BootstrapEvents(env) && engine.spawned == InitialSchedule(env)
    ensures engine.rng == old(engine.rng) && engine.foundOut == old(engine.foundOut)
    ensures engine.foundSequenceId == old(engine.foundSequenceId) && engine.foundQueue == old(engine.foundQueue)
  {
    hide SimEngine.Valid, VirtualClock.Valid, VirtualClock.Tick, NetworkEvents, DriverEvents, WithSpokes, RosterOdometers,
         FreshClocks, FreshAvailability, Spares, Bindings, InitialSchedule, SpareCount;
    NobodyYet();
    engine.EnsureSpokes();
    engine.SeedOdometers();
    engine.RegisterNetwork();
    if env.hosOn {
      engine.SeedPrimaryDrivers(env.TrailerCount());
      engine.SeedSpares(env.TrailerCount(), SpareCount(env));
    }
    engine.SeedSchedule();
  }

  method StartFresh(env: Env, seed: Word) returns (engine: SimEngine)
    requires env.Ok()
    ensures fresh(engine) && fresh(engine.queue) && fresh(engine.clock) && engine.env == env
    ensures engine.Ready() && engine.queue.Valid() && engine.Idle()
    ensures engine.foundOut == engine.out && engine.foundSequenceId == engine.nextSequenceId
    ensures engine.clock.Tick() == 0
    ensures engine.CurrentCore() == Bootstrap(env, seed).core && engine.out == Bootstrap(env, seed).events
  {
    hide SimEngine.Valid, VirtualClock.Valid, VirtualClock.Tick, FreshRng, FreshWorld, BootstrapEvents, InitialSchedule, Sort, ScheduleAll;
    engine := Assemble(env, [], 0, Core(FreshRng(env, seed), [], 0, EMPTY_WORLD, 0));
    assert Sort([]) == [] by { SortOfSorted([]); }
    Populate(engine, env);
    OpenBooks(engine);
    assert [] + engine.emitted == engine.emitted;
    engine.CloseDispatch();
    QueueIsValid(engine);
  }

  /** A resumed engine: everything from the continuation, then the two loops that run on every start. */
  method StartResumed(env: Env, c: Continuation) returns (engine: SimEngine)
    requires env.Ok() && Numbered(c.queue, c.nextSeq)
    ensures fresh(engine) && fresh(engine.queue) && fresh(engine.clock) && engine.env == env
    ensures engine.Ready() && engine.queue.Valid() && engine.Idle()
    ensures engine.foundOut == engine.out && engine.foundSequenceId == engine.nextSequenceId
    ensures engine.clock.Tick() == 0
    ensures engine.CurrentCore() == Restore(env, c) && engine.out == []
  {
    hide SimEngine.Valid, VirtualClock.Valid, VirtualClock.Tick, WithSpokes, RosterOdometers, Sort, Seeded;
    var rng := c.rng.(fuel := RestoredOr(env.fuelOn, c.rng.fuel, Seeded(env, c.seed, FUEL_RNG_SALT)),
                      induction := RestoredOr(env.inductionOn, c.rng.induction, Seeded(env, c.seed, INDUCTION_RNG_SALT)),
                      outbound := RestoredOr(env.outboundOn, c.rng.outbound, Seeded(env, c.seed, OUTBOUND_RNG_SALT)));
    hide RestoredOr;
    engine := Assemble(env, c.queue, c.nextSeq, Core(rng, c.queue, c.nextSeq, c.world, c.nextSequenceId));
    engine.EnsureSpokes();
    engine.SeedOdometers();
    QueueIsValid(engine);
  }

  /**
   * `runToHorizon`: it refuses a negative horizon, and otherwise ends without throwing in exactly
   * the events and the continuation of the function of the same name.
   */
  method Run(env: Env, start: SimStart, horizon: int) returns (r: Outcome)
    requires env.Ok() && (start.Resume? ==> CanResume(env, start.continuation))
    ensures horizon < 0 ==> r == HorizonRangeError
    ensures horizon >= 0 ==> Startable(start) && r == Finished(RunToHorizon(env, start, horizon))
  {
    if horizon < 0 {
      return HorizonRangeError;
    }
    hide Safe, Restore, Drain, Bootstrap, Sort, Sorted, Numbered;
    var engine;
    ghost var h: History;
    match start {
      case FreshStart(seed) =>
        engine := StartFresh(env, seed);
        FreshIsSafe(env, seed);
        h := After(env, seed, 0);
      case Resume(c) =>
        engine := StartResumed(env, c);
        h :| h.core == Restore(env, c) && Safe(env, h) && 0 <= SimTimeline.Now(h);
    }
    ghost var begun := Begin(env, start);
    engine.DrainTo(horizon, h);
    var captured := engine.queue.Snapshot();
    r := Finished(RunResult(engine.out, Continuation(SeedOf(start), horizon + 1, engine.rng, captured, engine.queue.nextSeq,
                                                     engine.world, engine.nextSequenceId)));
  }

  lemma FreshIsSafe(env: Env, seed: Word)
    requires env.Ok()
    ensures var h := After(env, seed, 0);
            h.core == Bootstrap(env, seed).core && Safe(env, h) && SimTimeline.Now(h) == 0
  {
    hide Bootstrap, Books, SimTimeline.Timeline;
    SimTimeline.InvariantsHold(env, seed, 0);
    hide Settled;
  }

  lemma QueueIsValid(engine: SimEngine)
    requires engine.Valid()
    ensures engine.queue.Valid()
  {
  }

  /** What a valid engine's bookkeeping says about its queue, log and sequence ids. */
  lemma OpenBooks(engine: SimEngine)
    requires engine.Valid()
    ensures engine.out == engine.foundOut + engine.emitted
    ensures engine.nextSequenceId == engine.foundSequenceId + |engine.emitted|
    ensures engine.Pending() == ScheduleAll(engine.foundQueue, engine.spawned)
  {
  }

  // ----- Whatever is captured can be resumed ---------------------------------------------------------

  lemma {:induction false} DrainIsSafe(env: Env, h: History, horizon: int) returns (end: History)
    requires env.Ok() && Safe(env, h) && Timely(h.core.queue)
    ensures Safe(env, end) && end.core == Drain(env, h.core, horizon).core && SimTimeline.Now(h) <= SimTimeline.Now(end)
    decreases QueueTicksLeft(h.core.queue, horizon), |h.core.queue|
  {
    hide Safe, StepHistory, Step, QueueTicksLeft, Timely, SimTimeline.Now;
    if h.core.queue == [] || h.core.queue[0].fireTick > horizon {
      end := h;
    } else {
      StepTerminates(env, h.core, horizon);
      SafeTurn(env, h);
      SafeStep(env, h);
      end := DrainIsSafe(env, StepHistory(env, h), horizon);
    }
  }

  /** Safety says nothing about odometers, so the roster loop cannot break it. */
  lemma OdometersDoNotMatter(env: Env, h: History, odometer: map<TrailerId, real>)
    requires Safe(env, h)
    ensures Safe(env, h.(core := h.core.(world := h.core.world.(odometer := odometer))))
  {
    var h' := h.(core := h.core.(world := h.core.world.(odometer := odometer)));
    hide SimFreight.InQueue, SimFreight.InManifests, RetiredIn, AwaitingInQueue, Sorted, Numbered, Timely, HasSpokes, LegsOnSpokes,
         SimTimeline.Timeline;
    assert forall k :: SimFreight.InWorld(env, h'.core.world, k) == SimFreight.InWorld(env, h.core.world, k);
    assert forall k :: SimFreight.Issued(env, h'.core.world, k) == SimFreight.Issued(env, h.core.world, k);
    assert forall k :: Recorded(h'.core.world, k) == Recorded(h.core.world, k);
    assert SimTimeline.Timeline(env, h') by { SameTimeline(env, h, h'); }
  }

  lemma SameTimeline(env: Env, h: History, h': History)
    requires SimTimeline.Timeline(env, h) && h'.log == h.log && h'.fired == h.fired && h'.core.queue == h.core.queue
    ensures SimTimeline.Timeline(env, h')
  {
  }

  /** A run from a seed or from anything captured captures something that can be resumed, with any flag on. */
  lemma CapturedCanResume(env: Env, start: SimStart, horizon: nat)
    requires env.Ok() && (start.Resume? ==> CanResume(env, start.continuation))
    ensures Startable(start) && CanResume(env, RunToHorizon(env, start, horizon).continuation)
  {
    hide Safe, Restore, Drain, Bootstrap, Sorted, Numbered, RosterOdometers;
    var h: History;
    match start {
      case FreshStart(seed) =>
        FreshIsSafe(env, seed);
        BootstrapTimely(env, seed);
        h := After(env, seed, 0);
      case Resume(c) =>
        h :| h.core == Restore(env, c) && Safe(env, h) && 0 <= SimTimeline.Now(h);
    }
    assert h.core == Begin(env, start).core;
    var end := DrainIsSafe(env, h, horizon);
    CaptureCanResume(env, end, SeedOf(start), horizon);
  }

  lemma CaptureCanResume(env: Env, h: History, seed: Word, horizon: int)
    requires Safe(env, h) && 0 <= SimTimeline.Now(h)
    ensures CanResume(env, Capture(h.core, seed, horizon))
  {
    RestoreUndoesCapture(env, h.core, seed, horizon);
    OdometersDoNotMatter(env, h, RosterOdometers(env, h.core.world.odometer));
    var again := h.(core := h.core.(world := h.core.world.(odometer := RosterOdometers(env, h.core.world.odometer))));
    hide Books, SimTimeline.Timeline, Restore, RosterOdometers;
    assert again.core == Restore(env, Capture(h.core, seed, horizon)) && Safe(env, again) && 0 <= SimTimeline.Now(again);
  }
}
