/**
 * The imperative engine of `packages/simulation/src/engine.ts`: maps, manifests, counters and
 * random words that the task handlers change in place. Every method is proved to do to the engine's
 * fields what the function of the same task in `Simulation.dfy` does to a value, and the loop that
 * pops and dispatches to do what `Drain` in `SimRuns.dfy` does.
 */
module Engine {
  import opened Hos
  import opened Generators
  import opened SimTypes
  import opened EventQueues
  import opened Clocks
  import opened Simulation
  import opened SimRuns
  import opened SimChunks
  import opened SimBooks
  import SimFreight
  import SimTimeline

  const MS_PER_TICK := 60_000

  /** What is known of a state of a run: ordered, balanced, on time. */
  ghost predicate Safe(env: Env, h: History) {
    Settled(env, h.core) && Books(env, h) && SimTimeline.Timeline(env, h)
  }

  lemma SafeIsTimely(env: Env, h: History)
    requires Safe(env, h)
    ensures Timely(h.core.queue)
  {
  }

  lemma SafeTurn(env: Env, h: History)
    requires env.Ok() && Safe(env, h)
    ensures Sorted(h.core.queue)
    ensures h.core.queue != [] ==> SimTimeline.Now(h) <= h.core.queue[0].fireTick && !Throws(h.core.world, h.core.queue[0].task)
  {
    if h.core.queue != [] {
      var head := h.core.queue[0];
      hide SimTimeline.Timeline;
      assert SimTimeline.Now(h) <= head.fireTick by { OnTime(env, h, head); }
      QueuedIsSound(env, h, head);
      if head.task.ArriveConsolidationAtCenter? {
        SimFreight.OnwardNeverThrows(env, h.core.world.consolidationDest, head.task.packages);
      }
    }
  }

  lemma OnTime(env: Env, h: History, x: Scheduled)
    requires SimTimeline.Timeline(env, h) && x in h.core.queue
    ensures SimTimeline.Now(h) <= x.fireTick
  {
  }

  lemma SafeStep(env: Env, h: History)
    requires env.Ok() && Safe(env, h) && h.core.queue != []
    ensures var next := StepHistory(env, h);
            && Safe(env, next) && Timely(next.core.queue)
            && next.core == Step(env, h.core).core && SimTimeline.Now(next) == h.core.queue[0].fireTick
  {
    StepSettled(env, h.core);
    StepKeepsBooks(env, h);
    SimTimeline.StepKeepsTimeline(env, h);
    hide Books, SimTimeline.Timeline, Fire;
  }

  /** One turn of the drain: how the drain unfolds, and why the loop gets nearer its end. */
  lemma DrainUnfolds(env: Env, h: History, horizon: int)
    requires env.Ok() && Safe(env, h) && Timely(h.core.queue)
    requires h.core.queue != [] && h.core.queue[0].fireTick <= horizon
    ensures var next := StepHistory(env, h);
      && Safe(env, next) && Timely(next.core.queue)
      && next.core == Step(env, h.core).core && SimTimeline.Now(next) == h.core.queue[0].fireTick
      && Drain(env, h.core, horizon).core == Drain(env, next.core, horizon).core
      && Drain(env, h.core, horizon).events == Step(env, h.core).events + Drain(env, next.core, horizon).events
      && Nearer(h.core.queue, next.core.queue, horizon)
  {
    hide Step, Safe, Timely, QueueTicksLeft, StepHistory, SimTimeline.Now;
    StepTerminates(env, h.core, horizon);
    SafeStep(env, h);
  }

  lemma NothingDrained(env: Env, core: Core, horizon: int)
    requires env.Ok() && Timely(core.queue) && (core.queue == [] || core.queue[0].fireTick > horizon)
    ensures Drain(env, core, horizon) == Ran(core, [])
  {
  }

  /** The measure of the drain loop falls from one queue to the next. */
  ghost predicate Nearer(before: seq<Scheduled>, after: seq<Scheduled>, horizon: int) {
    || QueueTicksLeft(after, horizon) < QueueTicksLeft(before, horizon)
    || (QueueTicksLeft(after, horizon) == QueueTicksLeft(before, horizon) && |after| < |before|)
  }

  lemma NobodyYet()
    ensures FreshClocks(0) == map[] && FreshAvailability(0) == map[]
  {
  }

  lemma PutBack(head: Scheduled, tail: seq<Scheduled>)
    requires Sorted([head] + tail)
    ensures Insert(tail, head) == [head] + tail
  {
    if tail != [] { assert ([head] + tail)[0] == head && ([head] + tail)[1] == tail[0]; }
  }

  /** The hand-over, field by field. */
  lemma RelayInSteps(env: Env, w: World, t: TrailerId, trip: TripId, current: DriverId, relief: DriverId, now: int)
    ensures var rested := FreshHosClock(now + env.hosConfig.resetOffDutyMin).(weeklyOnDutyMin := ClockOf(w, current).weeklyOnDutyMin);
      var pool := if current in w.sparePool then w.sparePool else w.sparePool + [current];
      var r := Relay(env, w, t, trip, current, relief, now);
      && r.world == w.(clockByDriver := w.clockByDriver[current := rested][relief := FreshHosClock(now)],
                       availableAt := w.availableAt[current := now + env.hosConfig.resetOffDutyMin][relief := now],
                       sparePool := RemoveFirst(pool, relief),
                       driverByTrailer := w.driverByTrailer[t := relief])
      && r.events == [OnTrailer(t, DriverSwappedAtHub(current, relief, Center, trip, t), now),
                      DutyEvent(current, Resting, RelayHandoff, rested, now)]
  {
  }

  /** The odometers once the roster loop has been through the first `n` trailers. */
  function Zeroed(o: map<TrailerId, real>, n: nat): map<TrailerId, real> {
    o + map t: nat | t <= n && IsId(t, n) :: t := 0.0
  }

  lemma ZeroedOneMore(o: map<TrailerId, real>, n: nat)
    ensures Zeroed(o, n + 1) == Zeroed(o, n)[n + 1 := 0.0]
  {
  }

  lemma RosterIsZeroed(env: Env, o: map<TrailerId, real>)
    ensures Zeroed(o, 0) == o
    ensures RosterOdometers(env, o) == if env.fuelOn then Zeroed(o, env.TrailerCount()) else o
  {
  }

  lemma NothingScheduled(q: Queued)
    ensures ScheduleAll(q, []) == q
  {
  }

  class SimEngine {
    const env: Env
    const queue: EventQueue
    const clock: VirtualClock
    var rng: RngStates
    var world: World
    var nextSequenceId: nat
    var out: seq<SimEvent>

    // What the task being dispatched found and has done so far.
    ghost var foundOut: seq<SimEvent>
    ghost var foundSequenceId: nat
    ghost var foundQueue: Queued
    ghost var emitted: seq<SimEvent>
    ghost var spawned: seq<Timed>

    /** An engine about to run from a captured state. */
    constructor (env: Env, queue: EventQueue, clock: VirtualClock, core: Core)
      requires env.Ok() && queue.Valid() && clock.Valid()
      ensures this.env == env && this.queue == queue && this.clock == clock
      ensures Ready() && Valid()
      ensures rng == core.rng && world == core.world && nextSequenceId == core.nextSequenceId
      ensures out == [] && emitted == [] && spawned == []
      ensures foundQueue == Pending()
    {
      this.env, this.queue, this.clock := env, queue, clock;
      rng := core.rng;
      world, nextSequenceId := core.world, core.nextSequenceId;
      out, foundOut, emitted, spawned := [], [], [], [];
      foundSequenceId := core.nextSequenceId;
      foundQueue := Queued(queue.Contents(), queue.nextSeq);
    }

    /** What the current task has done so far. */
    ghost function Done(): Effect
      reads this
    {
      Effect(rng, world, emitted, spawned)
    }

    ghost function Pending(): Queued
      reads queue
    {
      Queued(queue.Contents(), queue.nextSeq)
    }

    ghost predicate Valid()
      reads `out, `nextSequenceId, `foundOut, `foundSequenceId, `foundQueue, `emitted, `spawned, queue
    {
      && queue.Valid()
      && out == foundOut + emitted
      && nextSequenceId == foundSequenceId + |emitted|
      && Pending() == ScheduleAll(foundQueue, spawned)
    }

    ghost predicate Ready()
      reads clock
    {
      env.Ok() && clock.Valid()
    }

    /** The dispatch frame: what a handler must not forget. */
    twostate predicate SameDispatch()
      reads `foundOut, `foundSequenceId, `foundQueue
    {
      foundOut == old(foundOut) && foundSequenceId == old(foundSequenceId) && foundQueue == old(foundQueue)
    }

    ghost function Now(): int
      reads clock
    {
      clock.Tick()
    }

    method Emit(stream: Stream, event: DomainEvent)
      requires Ready() && Valid()
      modifies this`out, this`nextSequenceId, this`emitted
      ensures Valid()
      ensures emitted == old(emitted) + [SimEvent(stream, event, Now())]
    {
      var item := SimEvent(stream, event, clock.Tick());
      nextSequenceId := nextSequenceId + 1;
      out := out + [item];
      emitted := emitted + [item];
    }

    method Schedule(fireTick: int, task: SimTask)
      requires Ready() && Valid()
      modifies this`spawned, queue
      ensures Valid()
      ensures spawned == old(spawned) + [Timed(fireTick, task)]
    {
      hide Sort, Insert, Sorted;
      var order := queue.ClaimSeq();
      queue.Push(fireTick, order, task);
      spawned := spawned + [Timed(fireTick, task)];
      assert spawned[..|spawned| - 1] == old(spawned);
    }

    // ----- Freight creation ---------------------------------------------------------------

    method CreatePackageBatch(tick: int)
      requires Ready() && Valid()
      modifies this, queue
      ensures Valid() && SameDispatch()
      ensures Done() == CreateBatch(env, old(Done()), tick, Now())
    {
      hide Valid, VirtualClock.Valid, VirtualClock.Tick, Draw, Next, PushTo, SlaBuffer, OtherSpoke;
      var nextTick := tick + PACKAGE_INTERVAL_TICKS;
      var count;
      if env.sortWave.Some? {
        var wave := env.sortWave.value;
        var period := wave.burstWindowTicks + wave.quietWindowTicks;
        var cycle := if period > 0 then tick % period else 0;
        if cycle >= wave.burstWindowTicks {
          Schedule(nextTick, SimTask.CreatePackageBatch(nextTick));
          return;
        }
        count := wave.burstPackagesPerBatch;
      } else {
        count := 1 + Draw(env, rng.base, MAX_PACKAGES_PER_BATCH * env.fleetPerSpoke);
        rng := rng.(base := Next(env, rng.base));
      }
      ghost var start := Done();
      hide MakePackage;
      var i := 0;
      while i < count
        invariant 0 <= i <= Max(0, count)
        invariant Valid() && SameDispatch()
        invariant Done() == MakePackages(env, start, i, Now())
      {
        CreateOnePackage();
        i := i + 1;
      }
      Schedule(nextTick, SimTask.CreatePackageBatch(nextTick));
    }

    /** Three draws from the base stream: destination, size class, weight. */
    method DrawPackage() returns (dest: Hub, sizeClass: nat, weight: int)
      requires env.Ok()
      modifies `rng
      ensures var r0 := old(rng).base;
              var r1 := Next(env, r0);
              var r2 := Next(env, r1);
              && rng == old(rng).(base := Next(env, r2))
              && dest == Spoke(Draw(env, r0, env.spokeCount))
              && sizeClass == Draw(env, r1, SIZE_CLASSES)
              && weight == 1 + Draw(env, r2, 50)
    {
      hide Draw, Next;
      dest := Spoke(Draw(env, rng.base, env.spokeCount));
      rng := rng.(base := Next(env, rng.base));
      sizeClass := Draw(env, rng.base, SIZE_CLASSES);
      rng := rng.(base := Next(env, rng.base));
      weight := 1 + Draw(env, rng.base, 50);
      rng := rng.(base := Next(env, rng.base));
    }

    method CreateOnePackage()
      requires Ready() && Valid()
      modifies this
      ensures Valid() && SameDispatch()
      ensures Done() == MakePackage(env, old(Done()), Now())
    {
      hide Valid, VirtualClock.Valid, VirtualClock.Tick, Draw, Next, PushTo;
      world := world.(packageCounter := world.packageCounter + 1);
      var packageId := Created(world.packageCounter);
      var dest, sizeClass, weight := DrawPackage();
      Emit(PackageStream(packageId), PackageCreated(packageId, dest, sizeClass, weight, env.rfidOn));
      Emit(PackageStream(packageId), PackageScanned(packageId, Center, Inbound));
      world := world.(pendingBySpoke := PushTo(world.pendingBySpoke, dest, packageId));
    }

    /** Three draws from the induction stream: hub, a different hub, SLA class. */
    method DrawInduction() returns (inductionHub: Hub, destHub: Hub, slaClass: nat)
      requires env.Ok() && rng.induction.Some?
      modifies `rng
      ensures var r0 := old(rng).induction.value;
              var r1 := Next(env, r0);
              var r2 := Next(env, r1);
              && rng == old(rng).(induction := Some(Next(env, r2)))
              && inductionHub == Spoke(Draw(env, r0, env.spokeCount))
              && destHub == OtherSpoke(inductionHub.index, Draw(env, r1, env.spokeCount - 1))
              && slaClass == Draw(env, r2, SLA_CLASSES)
    {
      hide Draw, Next, OtherSpoke;
      inductionHub := Spoke(Draw(env, rng.induction.value, env.spokeCount));
      rng := rng.(induction := Some(Next(env, rng.induction.value)));
      destHub := OtherSpoke(inductionHub.index, Draw(env, rng.induction.value, env.spokeCount - 1));
      rng := rng.(induction := Some(Next(env, rng.induction.value)));
      slaClass := Draw(env, rng.induction.value, SLA_CLASSES);
      rng := rng.(induction := Some(Next(env, rng.induction.value)));
    }

    method InductPackage(tick: int)
      requires Ready() && Valid()
      modifies this, queue
      ensures Valid() && SameDispatch()
      ensures Done() == Induct(env, old(Done()), tick, Now())
    {
      hide Valid, VirtualClock.Valid, VirtualClock.Tick, Draw, Next, PushTo, SlaBuffer, OtherSpoke;
      if !env.inductionOn || rng.induction.None? {
        return;
      }
      world := world.(inductionCounter := world.inductionCounter + 1);
      var packageId := External(world.inductionCounter);
      var inductionHub, destHub, slaClass := DrawInduction();
      var deadline := clock.Tick() + env.expectedTravel(inductionHub, destHub) + SlaBuffer(slaClass);
      Emit(PackageStream(packageId), PackageInducted(packageId, inductionHub, destHub, slaClass, deadline));
      RecordInduction(packageId, inductionHub, destHub, deadline);
      var nextTick := tick + INDUCTION_INTERVAL_TICKS;
      Schedule(nextTick, SimTask.InductPackage(nextTick));
    }

    /** The deadline with outbound on; staging and destination with consolidation on. */
    method RecordInduction(packageId: PackageId, inductionHub: Hub, destHub: Hub, deadline: int)
      modifies `world
      ensures var w := old(world);
              world == w.(slaDeadline := if env.outboundOn then w.slaDeadline[packageId := deadline] else w.slaDeadline,
                          pendingAtSpoke := if env.consolidationOn then PushTo(w.pendingAtSpoke, inductionHub, packageId) else w.pendingAtSpoke,
                          consolidationDest := if env.consolidationOn then w.consolidationDest[packageId := destHub] else w.consolidationDest)
    {
      hide PushTo;
      if env.outboundOn {
        world := world.(slaDeadline := world.slaDeadline[packageId := deadline]);
      }
      if env.consolidationOn {
        world := world.(pendingAtSpoke := PushTo(world.pendingAtSpoke, inductionHub, packageId));
        world := world.(consolidationDest := world.consolidationDest[packageId := destHub]);
      }
    }

    method DeliverPackage(packageId: PackageId, hub: Hub, deadline: Option<int>)
      requires Ready() && Valid()
      modifies this
      ensures Valid() && SameDispatch()
      ensures Done() == Deliver(env, old(Done()), packageId, hub, deadline, Now())
    {
      hide Valid, VirtualClock.Valid, VirtualClock.Tick, Draw, Next, PushTo, SlaBuffer, OtherSpoke;
      if !env.outboundOn || rng.outbound.None? {
        return;
      }
      world := world.(deliveredCounter := world.deliveredCounter + 1);
      var deliveredAt := clock.Tick();
      var onTime := if deadline.Some? then deliveredAt <= deadline.value else true;
      Emit(PackageStream(packageId), PackageDelivered(packageId, hub, deliveredAt, onTime));
      world := world.(slaDeadline := world.slaDeadline - {packageId});
    }

    /** `emitRfid`: the reads of one pass, each on the trailer's stream. */
    method EmitRfid(reader: ReaderType, t: TrailerId, hub: Hub, packages: seq<PackageId>)
      requires Ready() && Valid()
      modifies this
      ensures Valid() && SameDispatch()
      ensures Done() == RfidEffect(env, old(Done()), reader, t, hub, packages, Now())
    {
      hide Valid, VirtualClock.Valid, VirtualClock.Tick;
      if !env.rfidOn || |packages| == 0 {
        return;
      }
      var (word, seen) := env.rfidReads(rng.rfid, reader, t, hub, packages);
      rng := rng.(rfid := word);
      ghost var before := emitted;
      for i := 0 to |seen|
        invariant Valid() && SameDispatch()
        invariant rng == old(rng).(rfid := word) && world == old(world) && spawned == old(spawned)
        invariant emitted == before + ReadEvents(t, seen[..i], Now())
      {
        Emit(TrailerStream(t), RfidObserved(seen[i]));
        assert ReadEvents(t, seen[..i + 1], Now()) == ReadEvents(t, seen[..i], Now()) + [OnTrailer(t, RfidObserved(seen[i]), Now())];
      }
      assert seen[..|seen|] == seen;
    }

    // ----- Drivers ----------------------------------------------------------------------------

    method EmitDutyState(d: DriverId, status: DutyStatus, cause: DutyReason, snapshot: HosClock)
      requires Ready() && Valid()
      modifies `out, `nextSequenceId, `emitted
      ensures Valid()
      ensures emitted == old(emitted) + [DutyEvent(d, status, cause, snapshot, Now())]
    {
      Emit(DriverStream(d), DriverDutyStateChanged(d, status, cause, snapshot));
    }

    /** The stable scan of the spare pool. */
    method FindRelief(current: DriverId, nowMin: int) returns (found: Option<DriverId>)
      ensures found == FirstFree(world, world.sparePool, current, nowMin)
    {
      var i := 0;
      while i < |world.sparePool|
        invariant 0 <= i <= |world.sparePool|
        invariant FirstFree(world, world.sparePool, current, nowMin) == FirstFree(world, world.sparePool[i..], current, nowMin)
      {
        var candidate := world.sparePool[i];
        if candidate != current && Free(world, candidate, nowMin) {
          return Some(candidate);
        }
        i := i + 1;
      }
      found := None;
    }

    method SelectDriverForLeg(t: TrailerId, trip: TripId, legMinutes: int) returns (driver: DriverId)
      requires Ready() && Valid()
      modifies this
      ensures Valid() && SameDispatch()
      ensures var choice := SelectDriver(env, old(world), t, trip, legMinutes, Now());
              && world == choice.world && driver == choice.driver && emitted == old(emitted) + choice.events
              && rng == old(rng) && spawned == old(spawned)
    {
      hide Valid, VirtualClock.Valid, VirtualClock.Tick, FirstFree, LegalMinutes, ClockOf, RemoveFirst;
      var nowMin := clock.Tick();
      var current := DriverOf(world, t);
      var currentRemaining := LegalMinutes(env, ClockOf(world, current), nowMin);
      if currentRemaining >= legMinutes {
        world := world.(availableAt := world.availableAt[current := nowMin]);
        return current;
      }
      var relief := None;
      if LegalMinutes(env, FreshHosClock(nowMin), nowMin) > currentRemaining {
        relief := FindRelief(current, nowMin);
      }
      if relief.None? {
        return current;
      }
      HandOver(t, trip, current, relief.value);
      driver := relief.value;
    }

    /** The relay itself: swap, rest the tired driver, bind the fresh one. */
    method HandOver(t: TrailerId, trip: TripId, current: DriverId, relief: DriverId)
      requires Ready() && Valid()
      modifies this
      ensures Valid() && SameDispatch()
      ensures var choice := Relay(env, old(world), t, trip, current, relief, Now());
              && world == choice.world && emitted == old(emitted) + choice.events
              && rng == old(rng) && spawned == old(spawned)
    {
      hide Valid, VirtualClock.Valid, VirtualClock.Tick, ClockOf, RemoveFirst, Relay;
      RelayInSteps(env, world, t, trip, current, relief, Now());
      var nowMin := clock.Tick();
      Emit(TrailerStream(t), DriverSwappedAtHub(current, relief, Center, trip, t));
      var rested := FreshHosClock(nowMin + env.hosConfig.resetOffDutyMin).(weeklyOnDutyMin := ClockOf(world, current).weeklyOnDutyMin);
      world := world.(clockByDriver := world.clockByDriver[current := rested],
                      availableAt := world.availableAt[current := nowMin + env.hosConfig.resetOffDutyMin]);
      EmitDutyState(current, Resting, RelayHandoff, rested);
      if current !in world.sparePool {
        world := world.(sparePool := world.sparePool + [current]);
      }
      world := world.(sparePool := RemoveFirst(world.sparePool, relief));
      world := world.(driverByTrailer := world.driverByTrailer[t := relief],
                      clockByDriver := world.clockByDriver[relief := FreshHosClock(nowMin)],
                      availableAt := world.availableAt[relief := nowMin]);
    }

    method AccrueDrivingLeg(d: DriverId, legMinutes: nat) returns (extra: int, rests: seq<Pause>)
      requires Ready() && Valid()
      modifies this
      ensures Valid() && SameDispatch()
      ensures var a := AccrueLeg(env, old(Done()), d, legMinutes, Now());
              Done() == a.effect && extra == a.extra && rests == a.rests
    {
      hide Valid, VirtualClock.Valid, VirtualClock.Tick, DriveLeg, Draw, Next, ClockOf;
      var before := ClockOf(world, d);
      var result := ApplyDrivingLeg(before, env.hosConfig, legMinutes, clock.Tick());
      var leg := result.leg;
      world := world.(clockByDriver := world.clockByDriver[d := leg.clock]);
      extra, rests := InjectPauses(d, leg.segments, leg.clock);
      if extra > 0 {
        EmitDutyState(d, Driving, RestComplete, leg.clock);
      }
    }

    /** Each inserted pause draws its jitter, in log order. */
    method InjectPauses(d: DriverId, segments: seq<DutySegment>, after: HosClock) returns (extra: int, rests: seq<Pause>)
      requires Ready() && Valid()
      modifies this
      ensures Valid() && SameDispatch()
      ensures var p := LegPauses(env, old(rng).hos, d, segments, after, Now());
              && rng == old(rng).(hos := p.word) && emitted == old(emitted) + p.events
              && extra == p.extra && rests == p.rests
              && world == old(world) && spawned == old(spawned)
    {
      hide Valid, VirtualClock.Valid, VirtualClock.Tick, Draw, Next;
      extra, rests := 0, [];
      for i := 0 to |segments|
        invariant Valid() && SameDispatch()
        invariant world == old(world) && spawned == old(spawned)
        invariant var p := LegPauses(env, old(rng).hos, d, segments[..i], after, Now());
                  && rng == old(rng).(hos := p.word) && emitted == old(emitted) + p.events
                  && extra == p.extra && rests == p.rests
      {
        var seg := segments[i];
        assert segments[..i + 1][..i] == segments[..i];
        if seg.kind != Drive {
          var pauseMinutes := seg.minutes + Draw(env, rng.hos, HOS_REST_JITTER_TICKS + 1);
          rng := rng.(hos := Next(env, rng.hos));
          extra := extra + pauseMinutes;
          var isBreak := seg.kind == Break;
          EmitDutyState(d, if isBreak then OnBreak else Resting, if isBreak then BreakDue else Reset10h, after);
          rests := rests + [Pause(if isBreak then Break30min else Rest10h, pauseMinutes)];
        }
      }
      assert segments[..|segments|] == segments;
    }

    // ----- Departures -----------------------------------------------------------------------------

    method EmitPhase(kind: PhaseKind, t: TrailerId, hub: Hub, trip: TripId)
      requires Ready() && Valid()
      modifies `out, `nextSequenceId, `emitted
      ensures Valid()
      ensures emitted == old(emitted) + PhaseEvents(env, kind, t, hub, trip, Now())
    {
      if env.hosOn {
        Emit(TrailerStream(t), TrailerPhase(kind, t, hub, trip));
      }
    }

    method EmitLoadScans(packages: seq<PackageId>, hub: Hub)
      requires Ready() && Valid()
      modifies `out, `nextSequenceId, `emitted
      ensures Valid()
      ensures emitted == old(emitted) + LoadScans(packages, hub, Now())
    {
      hide Valid, VirtualClock.Valid, VirtualClock.Tick;
      for i := 0 to |packages|
        invariant Valid() && emitted == old(emitted) + LoadScans(packages[..i], hub, Now())
      {
        Emit(PackageStream(packages[i]), PackageScanned(packages[i], hub, Load));
        assert LoadScans(packages[..i + 1], hub, Now())
            == LoadScans(packages[..i], hub, Now()) + [OnPackage(packages[i], PackageScanned(packages[i], hub, Load), Now())];
      }
      assert packages[..|packages|] == packages;
    }

    /** Drain the manifest, scan it aboard, leave, and draw the transit time. */
    method LoadAndDepart(t: TrailerId, spoke: Hub) returns (trip: TripId, loaded: seq<PackageId>, transitTicks: nat)
      requires Ready() && Valid()
      modifies this
      ensures Valid() && SameDispatch()
      ensures (Done(), transitTicks) == Roll(env, old(Done()), t, spoke, Now())
      ensures trip == old(world).tripCounter + 1 && loaded == Manifest(old(world).pendingBySpoke, spoke)
    {
      hide Valid, VirtualClock.Valid, VirtualClock.Tick, LoadScans, PhaseEvents;
      world := world.(tripCounter := world.tripCounter + 1);
      trip := world.tripCounter;
      loaded := Manifest(world.pendingBySpoke, spoke);
      world := world.(pendingBySpoke := world.pendingBySpoke[spoke := []]);
      EmitLoadScans(loaded, Center);
      EmitPhase(LoadStarted, t, Center, trip);
      Emit(TrailerStream(t), TrailerDeparted(t, Center, spoke, trip, loaded));
      var drawn := DrawTransit(env, rng.timing, Center, spoke);
      rng := rng.(timing := drawn.0);
      transitTicks := drawn.1;
    }

    method DispatchDriver(t: TrailerId, trip: TripId, transitTicks: nat)
      requires Ready() && Valid()
      modifies this
      ensures Valid() && SameDispatch()
      ensures Done() == Dispatch(env, old(Done()), t, trip, transitTicks, Now())
    {
      hide Valid, VirtualClock.Valid, VirtualClock.Tick, SelectDriver, ClockOf;
      if env.hosOn {
        var driver := SelectDriverForLeg(t, trip, transitTicks);
        Emit(DriverStream(driver), DriverAssignedToTrip(driver, trip, t));
        EmitDutyState(driver, Driving, TripDispatched, ClockOf(world, driver));
      }
    }

    method DepartTrailer(t: TrailerId, spoke: Hub, departTick: int)
      requires Ready() && Valid()
      modifies this, queue
      ensures Valid() && SameDispatch()
      ensures Done() == Depart(env, old(Done()), t, spoke, departTick, Now())
    {
      hide Valid, VirtualClock.Valid, VirtualClock.Tick, Roll, Dispatch, RfidEffect, AccrueLeg, Underway, Manifest, DriverOf;
      var trip, loaded, transitTicks := LoadAndDepart(t, spoke);
      DispatchDriver(t, trip, transitTicks);
      EmitRfid(Portal, t, Center, loaded);
      var extra, rests := 0, [];
      if env.hosOn {
        extra, rests := AccrueDrivingLeg(DriverOf(world, t), transitTicks);
      }
      FinishDeparture(t, spoke, trip, loaded, transitTicks, departTick, extra, rests);
    }

    /** Miles, refuel, availability, mid-leg stops and the arrival. */
    method FinishDeparture(t: TrailerId, spoke: Hub, trip: TripId, loaded: seq<PackageId>, transitTicks: nat, departTick: int,
                           extra: int, rests: seq<Pause>)
      requires Ready() && Valid()
      modifies this, queue
      ensures Valid() && SameDispatch()
      ensures Done() == Underway(env, Accrual(old(Done()), extra, rests), t, spoke, trip, loaded, transitTicks, departTick, Now())
    {
      hide Valid, VirtualClock.Valid, VirtualClock.Tick, Round;
      var refuelTicks, refuelOdometer, didRefuel := 0, 0.0, false;
      if env.fuelOn {
        var accrued := GetOr(world.odometer, t, 0.0) + env.legMiles(Center, spoke);
        if accrued >= env.fuelConfig.refuelThresholdMiles {
          didRefuel := true;
          refuelOdometer := accrued;
          world := world.(odometer := world.odometer[t := 0.0]);
          refuelTicks := Round(env.fuelConfig.refuelTimeMinutes);
        } else {
          world := world.(odometer := world.odometer[t := accrued]);
        }
      }
      assert Refuel(world, refuelTicks, refuelOdometer, didRefuel) == AccrueMiles(env, old(world), t, spoke);
      hide AccrueMiles;
      var addedTicks := Max(extra, refuelTicks);
      if env.hosOn {
        var driver := DriverOf(world, t);
        world := world.(availableAt := world.availableAt[driver := clock.Tick() + transitTicks + addedTicks]);
      }
      var arriveTick := departTick + transitTicks + addedTicks;
      if env.fuelOn && (|rests| > 0 || didRefuel) {
        Schedule(departTick + transitTicks / 2, MidLegStops(t, trip, rests, didRefuel, refuelOdometer));
      }
      Schedule(arriveTick, SimTask.ArriveTrailer(t, spoke, trip, loaded, arriveTick));
    }

    // ----- Arrivals ---------------------------------------------------------------------------------

    method EmitArrival(t: TrailerId, hub: Hub, trip: TripId)
      requires Ready() && Valid()
      modifies `out, `nextSequenceId, `emitted
      ensures Valid()
      ensures emitted == old(emitted) + ArrivalEvents(t, hub, trip, Now())
    {
      hide Valid, VirtualClock.Valid, VirtualClock.Tick;
      Emit(TrailerStream(t), TrailerArrivedAtHub(t, hub, trip));
      Emit(TrailerStream(t), TrailerDocked(t, hub));
    }

    method EmitUnload(p: PackageId, hub: Hub)
      requires Ready() && Valid()
      modifies `out, `nextSequenceId, `emitted
      ensures Valid()
      ensures emitted == old(emitted) + UnloadEvents(p, hub, Now())
    {
      hide Valid, VirtualClock.Valid, VirtualClock.Tick;
      Emit(PackageStream(p), PackageScanned(p, hub, Unload));
      Emit(PackageStream(p), PackageArrivedAtHub(p, hub));
    }

    /** Unload everything but the held-back package; with outbound on, schedule each delivery. */
    method UnloadCarried(carried: seq<PackageId>, held: Option<PackageId>, spoke: Hub, arriveTick: int)
      requires Ready() && Valid()
      modifies this, queue
      ensures Valid() && SameDispatch()
      ensures Done() == UnloadAll(env, old(Done()), carried, held, spoke, arriveTick, Now())
    {
      hide Valid, VirtualClock.Valid, VirtualClock.Tick, Draw, Next, UnloadOne;
      ghost var start := Done();
      for i := 0 to |carried|
        invariant Valid() && SameDispatch()
        invariant Done() == UnloadAll(env, start, carried[..i], held, spoke, arriveTick, Now())
      {
        var packageId := carried[i];
        assert carried[..i + 1][..i] == carried[..i];
        if held != Some(packageId) {
          UnloadPackage(packageId, spoke, arriveTick);
        }
      }
      assert carried[..|carried|] == carried;
    }

    method UnloadPackage(p: PackageId, spoke: Hub, arriveTick: int)
      requires Ready() && Valid()
      modifies this, queue
      ensures Valid() && SameDispatch()
      ensures Done() == UnloadOne(env, old(Done()), p, spoke, arriveTick, Now())
    {
      hide Valid, VirtualClock.Valid, VirtualClock.Tick, Draw, Next, UnloadEvents;
      EmitUnload(p, spoke);
      if env.outboundOn && rng.outbound.Some? {
        var dwell := 1 + Draw(env, rng.outbound.value, OUTBOUND_DWELL_TICKS_MAX);
        rng := rng.(outbound := Some(Next(env, rng.outbound.value)));
        var fireTick := arriveTick + dwell;
        var deadline := if p in world.slaDeadline then Some(world.slaDeadline[p]) else None;
        Schedule(fireTick, SimTask.DeliverPackage(p, spoke, deadline, fireTick));
      }
    }

    method ReturnOverCarried(t: TrailerId, spoke: Hub, held: Option<PackageId>, arriveTick: int)
      requires Ready() && Valid()
      modifies this, queue
      ensures Valid() && SameDispatch()
      ensures Done() == RideOn(env, old(Done()), t, spoke, held, arriveTick, Now())
    {
      hide Valid, VirtualClock.Valid, VirtualClock.Tick, RfidEffect, DrawTransit;
      if held.Some? {
        world := world.(tripCounter := world.tripCounter + 1);
        var returnTrip := world.tripCounter;
        Emit(TrailerStream(t), TrailerDeparted(t, spoke, Center, returnTrip, [held.value]));
        EmitRfid(Portal, t, spoke, [held.value]);
        var drawn := DrawTransit(env, rng.timing, spoke, Center);
        rng := rng.(timing := drawn.0);
        Schedule(arriveTick + drawn.1, SimTask.ArriveOverCarriedAtCenter(t, held.value, returnTrip));
      }
    }

    /** Sort and splice the staged manifest in one go, and carry it to the center. */
    method PickUpConsolidation(t: TrailerId, spoke: Hub, arriveTick: int)
      requires Ready() && Valid()
      modifies this, queue
      ensures Valid() && SameDispatch()
      ensures Done() == Consolidate(env, old(Done()), t, spoke, arriveTick, Now())
    {
      hide Valid, VirtualClock.Valid, VirtualClock.Tick, RfidEffect, DrawTransit, LoadScans, SortIds, Manifest;
      if env.consolidationOn {
        var consolidated := SortIds(env, Manifest(world.pendingAtSpoke, spoke));
        world := world.(pendingAtSpoke := world.pendingAtSpoke[spoke := []]);
        world := world.(tripCounter := world.tripCounter + 1);
        var trip := world.tripCounter;
        EmitLoadScans(consolidated, spoke);
        Emit(TrailerStream(t), TrailerDeparted(t, spoke, Center, trip, consolidated));
        assert emitted == old(emitted) + (LoadScans(consolidated, spoke, Now())
                           + [OnTrailer(t, TrailerDeparted(t, spoke, Center, trip, consolidated), Now())]);
        EmitRfid(Portal, t, spoke, consolidated);
        var drawn := DrawTransit(env, rng.timing, spoke, Center);
        rng := rng.(timing := drawn.0);
        Schedule(arriveTick + drawn.1, SimTask.ArriveConsolidationAtCenter(t, consolidated, trip));
      }
    }

    method DecideHoldBack(carried: seq<PackageId>) returns (held: Option<PackageId>)
      modifies `rng
      ensures (Done(), held) == HoldBack(env, old(Done()), carried)
    {
      held := None;
      if env.overCarryRate > 0.0 && |carried| > 0 {
        rng := rng.(overCarry := Next(env, rng.overCarry));
        if env.generator.output(rng.overCarry) as real < env.overCarryRate * 4294967296.0 {
          held := Some(carried[|carried| - 1]);
        }
      }
    }

    method ArriveTrailer(t: TrailerId, spoke: Hub, trip: TripId, carried: seq<PackageId>, arriveTick: int)
      requires Ready() && Valid()
      modifies this, queue
      ensures Valid() && SameDispatch()
      ensures Done() == Arrive(env, old(Done()), t, spoke, trip, carried, arriveTick, Now())
    {
      hide Valid, VirtualClock.Valid, VirtualClock.Tick, RfidEffect, HoldBack, UnloadAll, RideOn, Consolidate, TurnAround,
           ArrivalEvents, PhaseEvents;
      EmitArrival(t, spoke, trip);
      EmitPhase(UnloadStarted, t, spoke, trip);
      assert emitted == old(emitted) + (ArrivalEvents(t, spoke, trip, Now()) + PhaseEvents(env, UnloadStarted, t, spoke, trip, Now()));
      EmitRfid(Antenna, t, spoke, carried);
      assert Done() == Dock(env, old(Done()), t, spoke, trip, carried, Now());
      hide Dock;
      var held := DecideHoldBack(carried);
      UnloadCarried(carried, held, spoke, arriveTick);
      EmitPhase(UnloadCompleted, t, spoke, trip);
      ReturnOverCarried(t, spoke, held, arriveTick);
      PickUpConsolidation(t, spoke, arriveTick);
      Redispatch(t, spoke, arriveTick);
    }

    /** Both dwells, drawn once each, and the next departure. */
    method Redispatch(t: TrailerId, spoke: Hub, arriveTick: int)
      requires Ready() && Valid()
      modifies this, queue
      ensures Valid() && SameDispatch()
      ensures Done() == TurnAround(env, old(Done()), t, spoke, arriveTick)
    {
      hide Valid, DrawDwell;
      var atSpoke := DrawDwell(env, rng.timing, spoke);
      rng := rng.(timing := atSpoke.0);
      var atCenter := DrawDwell(env, rng.timing, Center);
      rng := rng.(timing := atCenter.0);
      var nextDepart := arriveTick + atSpoke.1 + atCenter.1;
      Schedule(nextDepart, SimTask.DepartTrailer(t, spoke, nextDepart));
    }

    method ArriveOverCarriedAtCenter(t: TrailerId, p: PackageId, trip: TripId)
      requires Ready() && Valid()
      modifies `out, `nextSequenceId, `emitted
      ensures Valid()
      ensures Done() == ArriveOverCarried(old(Done()), t, p, trip, Now())
    {
      hide Valid, VirtualClock.Valid, VirtualClock.Tick, ArrivalEvents, UnloadEvents;
      EmitArrival(t, Center, trip);
      EmitUnload(p, Center);
    }

    /** Unload one package and stage it for its recorded destination; false where the source throws. */
    method CrossDockPackage(packageId: PackageId) returns (found: bool)
      requires Ready() && Valid()
      modifies this
      ensures Valid() && SameDispatch()
      ensures found == (packageId in old(world).consolidationDest)
      ensures Done() == CrossDockOne(old(Done()), packageId, Now())
      ensures found ==> world.consolidationDest == old(world).consolidationDest - {packageId}
    {
      hide Valid, VirtualClock.Valid, VirtualClock.Tick, UnloadEvents, PushTo;
      EmitUnload(packageId, Center);
      found := packageId in world.consolidationDest;
      if found {
        var dest := world.consolidationDest[packageId];
        world := world.(consolidationDest := world.consolidationDest - {packageId});
        world := world.(pendingBySpoke := PushTo(world.pendingBySpoke, dest, packageId));
      }
    }

    /** The cross-dock; `ok` is false where the source throws. */
    method ArriveConsolidationAtCenter(t: TrailerId, packages: seq<PackageId>, trip: TripId) returns (ok: bool)
      requires Ready() && Valid()
      modifies this
      ensures Valid() && SameDispatch()
      ensures ok == !CrossDockThrows(old(world).consolidationDest, packages)
      ensures ok ==> Done() == ArriveConsolidation(old(Done()), t, packages, trip, Now())
    {
      hide Valid, VirtualClock.Valid, VirtualClock.Tick, ArrivalEvents, CrossDockOne;
      EmitArrival(t, Center, trip);
      ghost var start := Done();
      for i := 0 to |packages|
        invariant Valid() && SameDispatch()
        invariant Done() == CrossDock(start, packages[..i], Now())
        invariant CrossDockThrows(old(world).consolidationDest, packages) == CrossDockThrows(world.consolidationDest, packages[i..])
      {
        assert packages[..i + 1][..i] == packages[..i];
        var found := CrossDockPackage(packages[i]);
        if !found {
          return false;
        }
      }
      assert packages[..|packages|] == packages;
      ok := true;
    }

    method EmitMidLegStops(t: TrailerId, trip: TripId, rests: seq<Pause>, didRefuel: bool, odometer: real)
      requires Ready() && Valid()
      modifies `out, `nextSequenceId, `emitted
      ensures Valid()
      ensures emitted == old(emitted) + (RestEvents(t, trip, rests, Now())
                         + if didRefuel then [RefuelEvent(env, t, trip, odometer, Now())] else [])
    {
      hide Valid, VirtualClock.Valid, VirtualClock.Tick, Round;
      for i := 0 to |rests|
        invariant Valid() && emitted == old(emitted) + RestEvents(t, trip, rests[..i], Now())
      {
        Emit(TrailerStream(t), TruckRested(t, trip, rests[i].reason, rests[i].minutes));
        assert RestEvents(t, trip, rests[..i + 1], Now())
            == RestEvents(t, trip, rests[..i], Now()) + [OnTrailer(t, TruckRested(t, trip, rests[i].reason, rests[i].minutes), Now())];
      }
      assert rests[..|rests|] == rests;
      if didRefuel {
        var odo := Round(odometer);
        var burnt := odo as real / env.fuelConfig.milesPerGallon;
        var gallons := Round(if burnt <= env.fuelConfig.tankCapacityGallons then burnt else env.fuelConfig.tankCapacityGallons);
        Emit(TrailerStream(t), TruckRefueled(t, trip, gallons, odo, Round(env.fuelConfig.refuelTimeMinutes)));
      }
    }

    // ----- Dispatch and drain ---------------------------------------------------------------------------

    /** The single switch; `ok` is false where the source throws. */
    method DispatchTask(task: SimTask) returns (ok: bool)
      requires Ready() && Valid() && emitted == [] && spawned == []
      modifies this, queue
      ensures Valid() && SameDispatch()
      ensures ok == !Throws(old(world), task)
      ensures ok ==> Done() == Fire(env, old(rng), old(world), task, Now())
    {
      hide Valid, VirtualClock.Valid, VirtualClock.Tick, CreateBatch, Induct, Depart, Arrive, Deliver, ArriveOverCarried,
           ArriveConsolidation, RestEvents, RefuelEvent, CrossDockThrows;
      ok := true;
      match task
      case CreatePackageBatch(tick) => CreatePackageBatch(tick);
      case InductPackage(tick) => InductPackage(tick);
      case DepartTrailer(t, spoke, departTick) => DepartTrailer(t, spoke, departTick);
      case ArriveTrailer(t, spoke, trip, carried, arriveTick) => ArriveTrailer(t, spoke, trip, carried, arriveTick);
      case MidLegStops(t, trip, rests, didRefuel, odometer) => EmitMidLegStops(t, trip, rests, didRefuel, odometer);
      case ArriveOverCarriedAtCenter(t, p, trip) => ArriveOverCarriedAtCenter(t, p, trip);
      case ArriveConsolidationAtCenter(t, packages, trip) => ok := ArriveConsolidationAtCenter(t, packages, trip);
      case DeliverPackage(p, hub, deadline, _) => DeliverPackage(p, hub, deadline);
    }

    /** The state between two tasks. */
    ghost function CurrentCore(): Core
      reads this, queue
    {
      Core(rng, queue.Contents(), queue.nextSeq, world, nextSequenceId)
    }

    /** Nothing is half done. */
    ghost predicate Idle()
      reads `emitted, `spawned
    {
      emitted == [] && spawned == []
    }

    /** The bookkeeping of the task just dispatched is closed. */
    ghost method CloseDispatch()
      requires Valid()
      modifies `foundOut, `foundSequenceId, `foundQueue, `emitted, `spawned
      ensures Valid() && Idle()
      ensures foundOut == out && foundSequenceId == nextSequenceId && foundQueue == Pending()
    {
      foundOut, foundSequenceId, foundQueue := out, nextSequenceId, Pending();
      emitted, spawned := [], [];
    }

    /** Pop the earliest task; one past the horizon is put back as it was. */
    method TakeDue(horizon: int, ghost before: seq<Scheduled>) returns (due: Option<Scheduled>)
      requires queue.Valid() && before == queue.Contents() && Sorted(before)
      modifies queue
      ensures queue.Valid() && queue.nextSeq == old(queue.nextSeq)
      ensures due.Some? == (before != [] && before[0].fireTick <= horizon)
      ensures if due.Some? then before == [due.value] + queue.Contents() else queue.Contents() == before
    {
      hide Sort, Sorted;
      due := queue.Pop();
      if due.Some? && due.value.fireTick > horizon {
        queue.Push(due.value.fireTick, due.value.order, due.value.task);
        PutBack(due.value, before[1..]);
        due := None;
      }
    }

    /** Move the clock to the task's tick and dispatch it. */
    method FireTask(head: Scheduled, ghost core: Core)
      requires Ready() && queue.Valid() && Idle() && out == foundOut && nextSequenceId == foundSequenceId
      requires core.queue == [head] + queue.Contents() && core.nextSeq == queue.nextSeq
      requires core.rng == rng && core.world == world && core.nextSequenceId == nextSequenceId
      requires clock.Tick() <= head.fireTick && !Throws(world, head.task)
      modifies this, queue, clock
      ensures Ready() && queue.Valid() && Idle() && out == foundOut && nextSequenceId == foundSequenceId
      ensures clock.Tick() == head.fireTick
      ensures CurrentCore() == Step(env, core).core && out == old(out) + Step(env, core).events
    {
      hide VirtualClock.Valid, VirtualClock.Tick, Fire, Throws, Sort, ScheduleAll;
      foundQueue := Pending();
      NothingScheduled(foundQueue);
      var moved := clock.Advance(head.fireTick - clock.Tick());
      assert core.queue[1..] == foundQueue.queue;
      var ok := DispatchTask(head.task);
      CloseDispatch();
    }

    /** The drain loop: it ends, never throws, and does what `Drain` says. */
    method DrainTo(horizon: int, ghost h: History)
      requires Ready() && queue.Valid() && Idle() && out == foundOut && nextSequenceId == foundSequenceId
      requires h.core == CurrentCore() && Safe(env, h)
      requires clock.Tick() <= SimTimeline.Now(h)
      modifies this, queue, clock
      ensures Ready() && queue.Valid()
      ensures Timely(h.core.queue)
      ensures CurrentCore() == Drain(env, h.core, horizon).core
      ensures out == old(out) + Drain(env, h.core, horizon).events
    {
      hide VirtualClock.Valid, VirtualClock.Tick, EventQueue.Valid, Step, Safe, Sort, Sorted, Timely, QueueTicksLeft,
           StepHistory, SimTimeline.Now, Drain;
      SafeIsTimely(env, h);
      ghost var now := h;
      ghost var done: seq<SimEvent> := [];
      assert out + [] == out;
      while true
        invariant Ready() && queue.Valid() && Idle() && out == foundOut && nextSequenceId == foundSequenceId
        invariant now.core == CurrentCore() && Safe(env, now) && Timely(now.core.queue)
        invariant clock.Tick() <= SimTimeline.Now(now)
        invariant out == old(out) + done
        invariant Drain(env, h.core, horizon).core == Drain(env, now.core, horizon).core
        invariant Drain(env, h.core, horizon).events == done + Drain(env, now.core, horizon).events
        decreases QueueTicksLeft(now.core.queue, horizon), |now.core.queue|
      {
        SafeTurn(env, now);
        var due := TakeDue(horizon, now.core.queue);
        if due.None? {
          NothingDrained(env, now.core, horizon);
          assert done + [] == done;
          break;
        }
        DrainUnfolds(env, now, horizon);
        FireTask(due.value, now.core);
        done := done + Step(env, now.core).events;
        now := StepHistory(env, now);
      }
    }

    // ----- Start of a run ------------------------------------------------------------------------------------

    /** Restored manifests: every spoke that is missing starts empty. */
    method EnsureSpokes()
      modifies `world
      ensures world == old(world).(pendingBySpoke := WithSpokes(env, old(world).pendingBySpoke),
                                   pendingAtSpoke := WithSpokes(env, old(world).pendingAtSpoke))
    {
      var bySpoke := FillSpokes(env, world.pendingBySpoke);
      var atSpoke := FillSpokes(env, world.pendingAtSpoke);
      world := world.(pendingBySpoke := bySpoke, pendingAtSpoke := atSpoke);
    }

    /** The roster loop: with fuel on every trailer's odometer is set to zero, fresh start or not. */
    method SeedOdometers()
      modifies `world
      ensures world == old(world).(odometer := RosterOdometers(env, old(world).odometer))
    {
      hide RosterOdometers, Zeroed;
      RosterIsZeroed(env, world.odometer);
      if env.fuelOn {
        for n := 0 to env.TrailerCount()
          invariant world == old(world).(odometer := Zeroed(old(world).odometer, n))
        {
          ZeroedOneMore(old(world).odometer, n);
          world := world.(odometer := world.odometer[n + 1 := 0.0]);
        }
      }
    }

    method RegisterNetwork()
      requires Ready() && Valid()
      modifies `out, `nextSequenceId, `emitted
      ensures Valid()
      ensures emitted == old(emitted) + NetworkEvents(env, Now())
    {
      hide Valid, VirtualClock.Valid, VirtualClock.Tick;
      Emit(HubStream(Center), HubRegistered(Center));
      for i := 0 to env.spokeCount
        invariant Valid() && emitted == old(emitted) + HubEvents(i, Now())
      {
        Emit(HubStream(Spoke(i)), HubRegistered(Spoke(i)));
        assert HubEvents(i + 1, Now()) == HubEvents(i, Now()) + [SimEvent(HubStream(Spoke(i)), HubRegistered(Spoke(i)), Now())];
      }
      for i := 0 to |env.routes|
        invariant Valid() && emitted == old(emitted) + HubEvents(env.spokeCount, Now()) + RouteEvents(env.routes[..i], Now())
      {
        var (from, to) := env.routes[i];
        Emit(RouteStream(from, to), RouteRegistered(from, to));
        assert RouteEvents(env.routes[..i + 1], Now())
            == RouteEvents(env.routes[..i], Now()) + [SimEvent(RouteStream(from, to), RouteRegistered(from, to), Now())];
      }
      assert env.routes[..|env.routes|] == env.routes;
    }

    /** One driver bound to each trailer, all fresh and free at the epoch. */
    method SeedPrimaryDrivers(trailers: nat)
      requires Ready() && Valid() && clock.Tick() == 0 && emitted == NetworkEvents(env, Now())
      requires world.driverByTrailer == map[] && world.clockByDriver == map[] && world.availableAt == map[]
      modifies `out, `nextSequenceId, `emitted, `world
      ensures Valid() && emitted == NetworkEvents(env, Now()) + DriverEvents(trailers, Now())
      ensures world == old(world).(driverByTrailer := Bindings(trailers),
                                   clockByDriver := FreshClocks(trailers), availableAt := FreshAvailability(trailers))
    {
      hide Valid, VirtualClock.Valid, VirtualClock.Tick, NetworkEvents, FreshClocks, FreshAvailability;
      NobodyYet();
      for n := 0 to trailers
        invariant Valid() && emitted == NetworkEvents(env, Now()) + DriverEvents(n, Now())
        invariant world == old(world).(driverByTrailer := Bindings(n), clockByDriver := FreshClocks(n),
                                       availableAt := FreshAvailability(n))
      {
        world := world.(driverByTrailer := world.driverByTrailer[n + 1 := n + 1]);
        RegisterDriver(n);
      }
    }

    /** The spare pool, in registration order. */
    method SeedSpares(trailers: nat, spares: nat)
      requires Ready() && Valid() && clock.Tick() == 0 && emitted == NetworkEvents(env, Now()) + DriverEvents(trailers, Now())
      requires world.clockByDriver == FreshClocks(trailers) && world.availableAt == FreshAvailability(trailers) && world.sparePool == []
      modifies `out, `nextSequenceId, `emitted, `world
      ensures Valid() && emitted == NetworkEvents(env, Now()) + DriverEvents(trailers + spares, Now())
      ensures world == old(world).(clockByDriver := FreshClocks(trailers + spares),
                                   availableAt := FreshAvailability(trailers + spares), sparePool := Spares(trailers, spares))
    {
      hide Valid, VirtualClock.Valid, VirtualClock.Tick, NetworkEvents, FreshClocks, FreshAvailability, DriverEvents;
      for k := 0 to spares
        invariant Valid() && emitted == NetworkEvents(env, Now()) + DriverEvents(trailers + k, Now())
        invariant world == old(world).(clockByDriver := FreshClocks(trailers + k),
                                       availableAt := FreshAvailability(trailers + k), sparePool := Spares(trailers, k))
      {
        RegisterDriver(trailers + k);
        world := world.(sparePool := world.sparePool + [trailers + k + 1]);
        assert Spares(trailers, k + 1) == Spares(trailers, k) + [trailers + k + 1];
      }
    }

    method RegisterDriver(n: nat)
      requires Ready() && Valid() && clock.Tick() == 0
      requires world.clockByDriver == FreshClocks(n) && world.availableAt == FreshAvailability(n)
      modifies `out, `nextSequenceId, `emitted, `world
      ensures Valid()
      ensures emitted == old(emitted) + [OnDriver(n + 1, DriverRegistered(n + 1), Now())]
      ensures DriverEvents(n + 1, Now()) == DriverEvents(n, Now()) + [OnDriver(n + 1, DriverRegistered(n + 1), Now())]
      ensures world == old(world).(clockByDriver := FreshClocks(n + 1), availableAt := FreshAvailability(n + 1))
    {
      hide Valid;
      world := world.(clockByDriver := world.clockByDriver[n + 1 := FreshHosClock(clock.Tick())],
                      availableAt := world.availableAt[n + 1 := clock.Tick()]);
      assert world.clockByDriver == FreshClocks(n + 1);
      assert world.availableAt == FreshAvailability(n + 1);
      Emit(DriverStream(n + 1), DriverRegistered(n + 1));
    }

    /** The first batch at tick 0, the roster's departures, the first induction. */
    method SeedSchedule()
      requires Ready() && Valid() && spawned == []
      modifies `spawned, queue
      ensures Valid()
      ensures spawned == InitialSchedule(env)
    {
      hide Valid;
      Schedule(0, SimTask.CreatePackageBatch(0));
      for k := 0 to env.TrailerCount()
        invariant Valid() && spawned == [Timed(0, SimTask.CreatePackageBatch(0))] + RosterDepartures(env, k)
      {
        var d := RosterDeparture(env, k);
        Schedule(d.fireTick, d.task);
      }
      if env.inductionOn {
        Schedule(INDUCTION_START_TICK, SimTask.InductPackage(INDUCTION_START_TICK));
      }
    }
  }

  method FillSpokes(env: Env, m: map<Hub, seq<PackageId>>) returns (r: map<Hub, seq<PackageId>>)
    ensures r == WithSpokes(env, m)
  {
    r := m;
    for i := 0 to env.spokeCount
      invariant m.Keys <= r.Keys && (forall h :: h in m ==> r[h] == m[h])
      invariant forall h :: h in r <==> h in m || (h.Spoke? && h.index < i)
      invariant forall h :: h in r && h !in m ==> r[h] == []
    {
      if Spoke(i) !in r {
        r := r[Spoke(i) := []];
      }
    }
    forall h ensures h in r <==> h in WithSpokes(env, m) {
      if h.Spoke? && h.index < env.spokeCount { assert h == Spoke(h.index); }
    }
  }
}
