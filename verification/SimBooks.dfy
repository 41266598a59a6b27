/**
 * The conserved books over whole runs: in every reachable state each issued package is in exactly one
 * place, each activity has exactly one pending task, and an onward destination is recorded for exactly
 * the packages that are staged at a spoke or on their way to the center. `FireBalances` moves the books
 * by one firing; here they are opened at the start of a run and carried along it.
 */
module SimBooks {
  import opened Generators
  import opened SimTypes
  import opened EventQueues
  import opened Simulation
  import opened SimRuns
  import opened SimFreight
  import opened SimChunks

  // ----- Reachable states ------------------------------------------------------------------

  /** A firing, with the random words it found. */
  datatype Fired = Fired(rng: RngStates, task: SimTask, at: int)

  /** A state of a run together with everything that led to it. */
  datatype History = History(core: Core, log: seq<SimEvent>, fired: seq<Fired>)

  function StepHistory(env: Env, h: History): History
    requires env.Ok() && h.core.queue != []
  {
    var head := h.core.queue[0];
    var ran := Step(env, h.core);
    History(ran.core, h.log + ran.events, h.fired + [Fired(h.core.rng, head.task, head.fireTick)])
  }

  /** The state after `n` firings of the run seeded by `seed`. */
  function After(env: Env, seed: Word, n: nat): History
    requires env.Ok()
  {
    if n == 0 then
      var begun := Bootstrap(env, seed);
      History(begun.core, begun.events, [])
    else
      var before := After(env, seed, n - 1);
      if before.core.queue == [] then before else StepHistory(env, before)
  }

  // ----- The second set of books: what awaits the cross-dock ----------------------------------

  function AwaitingInTask(task: SimTask, k: Token): nat {
    if task.ArriveConsolidationAtCenter? then CountIn(task.packages, k) else 0
  }

  function AwaitingInQueue(queue: seq<Scheduled>, k: Token): nat {
    if queue == [] then 0 else AwaitingInTask(queue[0].task, k) + AwaitingInQueue(queue[1..], k)
  }

  function AwaitingInSpawned(spawned: seq<Timed>, k: Token): nat {
    if spawned == [] then 0
    else AwaitingInSpawned(spawned[..|spawned| - 1], k) + AwaitingInTask(spawned[|spawned| - 1].task, k)
  }

  function Recorded(w: World, k: Token): nat { One(k.Freight? && k.package in w.consolidationDest) }

  function AwaitingLedger(env: Env, e: Effect, k: Token): int {
    AwaitingInSpawned(e.spawned, k) + InManifests(e.world.pendingAtSpoke, env.spokeCount, k) - Recorded(e.world, k)
  }

  lemma AwaitingPush(spawned: seq<Timed>, x: Timed, k: Token)
    ensures AwaitingInSpawned(spawned + [x], k) == AwaitingInSpawned(spawned, k) + AwaitingInTask(x.task, k)
  {
    assert (spawned + [x])[..|spawned|] == spawned;
  }

  lemma {:induction false} AwaitingAppend(spawned: seq<Timed>, more: seq<Timed>, k: Token)
    requires forall i :: 0 <= i < |more| ==> !more[i].task.ArriveConsolidationAtCenter?
    ensures AwaitingInSpawned(spawned + more, k) == AwaitingInSpawned(spawned, k)
  {
    if more == [] {
      assert spawned + more == spawned;
    } else {
      AwaitingAppend(spawned, more[..|more| - 1], k);
      assert spawned + more == (spawned + more[..|more| - 1]) + [more[|more| - 1]];
      AwaitingPush(spawned + more[..|more| - 1], more[|more| - 1], k);
    }
  }

  /** A stage that schedules no consolidation and leaves the staging side alone. */
  ghost predicate StagingUntouched(e: Effect, r: Effect) {
    && e.spawned <= r.spawned
    && (forall i :: |e.spawned| <= i < |r.spawned| ==> !r.spawned[i].task.ArriveConsolidationAtCenter?)
    && r.world.pendingAtSpoke == e.world.pendingAtSpoke
    && r.world.consolidationDest == e.world.consolidationDest
  }

  lemma UntouchedSameAwaiting(env: Env, e: Effect, r: Effect, k: Token)
    requires StagingUntouched(e, r)
    ensures AwaitingLedger(env, r, k) == AwaitingLedger(env, e, k)
  {
    var more := r.spawned[|e.spawned|..];
    assert r.spawned == e.spawned + more;
    AwaitingAppend(e.spawned, more, k);
  }

  lemma {:induction false} MakePackagesUntouched(env: Env, e: Effect, count: nat, now: int)
    requires env.Ok()
    ensures StagingUntouched(e, MakePackages(env, e, count, now))
  {
    if count > 0 { MakePackagesUntouched(env, e, count - 1, now); }
  }

  lemma {:induction false} UnloadAllUntouched(
    env: Env, e: Effect, carried: seq<PackageId>, held: Option<PackageId>, spoke: Hub, arriveTick: int, now: int)
    ensures StagingUntouched(e, UnloadAll(env, e, carried, held, spoke, arriveTick, now))
  {
    if carried != [] { UnloadAllUntouched(env, e, carried[..|carried| - 1], held, spoke, arriveTick, now); }
  }

  lemma DepartUntouched(env: Env, e: Effect, t: TrailerId, spoke: Hub, departTick: int, now: int)
    requires env.Ok()
    ensures StagingUntouched(e, Depart(env, e, t, spoke, departTick, now))
  {
    hide Roll, Dispatch, RfidEffect, DriveOut, Underway, Manifest;
    assert StagingUntouched(e, Roll(env, e, t, spoke, now).0) by { RollUntouched(env, e, t, spoke, now); }
    var (rolled, transit) := Roll(env, e, t, spoke, now);
    var trip, loaded := e.world.tripCounter + 1, Manifest(e.world.pendingBySpoke, spoke);
    var dispatched := Dispatch(env, rolled, t, trip, transit, now);
    var read := RfidEffect(env, dispatched, Portal, t, Center, loaded, now);
    DispatchSameFreight(env, rolled, t, trip, transit, now);
    RfidSameFreight(env, dispatched, Portal, t, Center, loaded, now);
    DriveOutSameFreight(env, read, t, transit, now);
    UnderwayMovesNothing(env, DriveOut(env, read, t, transit, now), t, spoke, trip, loaded, transit, departTick, now);
  }

  lemma RollUntouched(env: Env, e: Effect, t: TrailerId, spoke: Hub, now: int)
    ensures StagingUntouched(e, Roll(env, e, t, spoke, now).0)
  {
    hide LoadScans;
  }

  lemma ConsolidateAwaiting(env: Env, e: Effect, t: TrailerId, spoke: Hub, arriveTick: int, now: int, k: Token)
    requires env.IsSpoke(spoke)
    ensures AwaitingLedger(env, Consolidate(env, e, t, spoke, arriveTick, now), k) == AwaitingLedger(env, e, k)
  {
    hide LoadScans;
    if env.consolidationOn {
      var staged := Manifest(e.world.pendingAtSpoke, spoke);
      SortIdsCount(env, staged);
      CountIsMultiplicity(staged, k);
      CountIsMultiplicity(SortIds(env, staged), k);
      InManifestsUpdate(e.world.pendingAtSpoke, spoke, [], env.spokeCount, k);
      var r := Consolidate(env, e, t, spoke, arriveTick, now);
      AwaitingPush(e.spawned, r.spawned[|e.spawned|], k);
    }
  }

  lemma RideOnUntouched(env: Env, e: Effect, t: TrailerId, spoke: Hub, held: Option<PackageId>, arriveTick: int, now: int)
    ensures StagingUntouched(e, RideOn(env, e, t, spoke, held, arriveTick, now))
  {
  }

  lemma TurnAroundUntouched(env: Env, e: Effect, t: TrailerId, spoke: Hub, arriveTick: int)
    ensures StagingUntouched(e, TurnAround(env, e, t, spoke, arriveTick))
  {
  }

  lemma UnloadPhaseUntouched(env: Env, e: Effect, t: TrailerId, spoke: Hub, trip: TripId, carried: seq<PackageId>, arriveTick: int, now: int)
    ensures StagingUntouched(e, UnloadPhase(env, e, t, spoke, trip, carried, arriveTick, now).0)
  {
    hide UnloadAll;
    var (drawn, held) := HoldBack(env, e, carried);
    UnloadAllUntouched(env, drawn, carried, held, spoke, arriveTick, now);
  }

  lemma ArriveAwaiting(env: Env, e: Effect, t: TrailerId, spoke: Hub, trip: TripId, carried: seq<PackageId>,
                       arriveTick: int, now: int, k: Token)
    requires env.IsSpoke(spoke)
    ensures AwaitingLedger(env, Arrive(env, e, t, spoke, trip, carried, arriveTick, now), k) == AwaitingLedger(env, e, k)
  {
    hide Dock, UnloadPhase, RideOn, Consolidate, TurnAround, AwaitingLedger, StagingUntouched;
    var docked := Dock(env, e, t, spoke, trip, carried, now);
    var (unloaded, held) := UnloadPhase(env, docked, t, spoke, trip, carried, arriveTick, now);
    var ridden := RideOn(env, unloaded, t, spoke, held, arriveTick, now);
    var consolidated := Consolidate(env, ridden, t, spoke, arriveTick, now);
    DockUntouched(env, e, t, spoke, trip, carried, now);
    UnloadPhaseUntouched(env, docked, t, spoke, trip, carried, arriveTick, now);
    RideOnUntouched(env, unloaded, t, spoke, held, arriveTick, now);
    ConsolidateAwaiting(env, ridden, t, spoke, arriveTick, now, k);
    TurnAroundUntouched(env, consolidated, t, spoke, arriveTick);
    UntouchedSameAwaiting(env, e, docked, k);
    UntouchedSameAwaiting(env, docked, unloaded, k);
    UntouchedSameAwaiting(env, unloaded, ridden, k);
    UntouchedSameAwaiting(env, consolidated, TurnAround(env, consolidated, t, spoke, arriveTick), k);
  }

  lemma DockUntouched(env: Env, e: Effect, t: TrailerId, spoke: Hub, trip: TripId, carried: seq<PackageId>, now: int)
    ensures StagingUntouched(e, Dock(env, e, t, spoke, trip, carried, now))
  {
  }

  lemma InductAwaiting(env: Env, e: Effect, tick: int, now: int, k: Token)
    requires env.Ok() && External(e.world.inductionCounter + 1) !in e.world.consolidationDest
    ensures AwaitingLedger(env, Induct(env, e, tick, now), k) == AwaitingLedger(env, e, k)
  {
    hide Draw, Next, OtherSpoke, SlaBuffer, PushTo, InManifests, AwaitingInSpawned;
    if env.inductionOn && e.rng.induction.Some? {
      var from := Spoke(Draw(env, e.rng.induction.value, env.spokeCount));
      InManifestsPush(e.world.pendingAtSpoke, from, External(e.world.inductionCounter + 1), env.spokeCount, k);
      AwaitingPush(e.spawned, Timed(tick + INDUCTION_INTERVAL_TICKS, InductPackage(tick + INDUCTION_INTERVAL_TICKS)), k);
    }
  }

  lemma CreateBatchUntouched(env: Env, e: Effect, tick: int, now: int)
    requires env.Ok()
    ensures StagingUntouched(e, CreateBatch(env, e, tick, now))
  {
    if !QuietWindow(env, tick) {
      var (w', count) := BatchSize(env, e.rng.base);
      MakePackagesUntouched(env, e.(rng := e.rng.(base := w')), Hos.Max(0, count), now);
    }
  }

  lemma CrossDockAwaiting(env: Env, e: Effect, packages: seq<PackageId>, now: int, k: Token)
    requires NoDuplicates(packages) && Onward(env, e.world.consolidationDest, packages)
    ensures AwaitingLedger(env, CrossDock(e, packages, now), k) == AwaitingLedger(env, e, k) + CountIn(packages, k)
  {
    hide CrossDock, InManifests, CountIn;
    CrossDockSpawnsNothing(e, packages, now);
    CrossDockBalances(env, e, packages, now, k);
    CountOfDistinct(packages, k);
  }

  /** Firing keeps the staged packages and the recorded destinations in step. */
  lemma FireAwaiting(env: Env, rng: RngStates, w: World, task: SimTask, now: int, k: Token)
    requires env.Ok() && Sound(env, w, task)
    requires External(w.inductionCounter + 1) !in w.consolidationDest
    ensures var r := Fire(env, rng, w, task, now);
            AwaitingInSpawned(r.spawned, k) + InManifests(r.world.pendingAtSpoke, env.spokeCount, k) + Recorded(w, k)
            == AwaitingInTask(task, k) + InManifests(w.pendingAtSpoke, env.spokeCount, k) + Recorded(r.world, k)
  {
    hide CreateBatch, Induct, Depart, Arrive, Deliver, CrossDock, CountIn, NoDuplicates, Onward, InManifests;
    var e := Effect(rng, w, [], []);
    match task
    case CreatePackageBatch(tick) =>
      CreateBatchUntouched(env, e, tick, now);
      UntouchedSameAwaiting(env, e, CreateBatch(env, e, tick, now), k);
    case InductPackage(tick) => InductAwaiting(env, e, tick, now, k);
    case DepartTrailer(t, spoke, departTick) =>
      DepartUntouched(env, e, t, spoke, departTick, now);
      UntouchedSameAwaiting(env, e, Depart(env, e, t, spoke, departTick, now), k);
    case ArriveTrailer(t, spoke, trip, carried, arriveTick) => ArriveAwaiting(env, e, t, spoke, trip, carried, arriveTick, now, k);
    case ArriveConsolidationAtCenter(t, packages, trip) =>
      CrossDockAwaiting(env, e.Emit(ArrivalEvents(t, Center, trip, now)), packages, now, k);
    case DeliverPackage(p, hub, deadline, _) =>
      assert StagingUntouched(e, Deliver(env, e, p, hub, deadline, now)) by { DeliverUntouched(env, e, p, hub, deadline, now); }
      UntouchedSameAwaiting(env, e, Deliver(env, e, p, hub, deadline, now), k);
    case _ =>
  }

  lemma DeliverUntouched(env: Env, e: Effect, p: PackageId, hub: Hub, deadline: Option<int>, now: int)
    ensures StagingUntouched(e, Deliver(env, e, p, hub, deadline, now))
  {
  }

  // ----- Sums over the queue ---------------------------------------------------------------------

  lemma {:induction false} InsertCounts(queue: seq<Scheduled>, x: Scheduled, k: Token)
    ensures InQueue(Insert(queue, x), k) == InQueue(queue, k) + InTask(x.task, k)
    ensures AwaitingInQueue(Insert(queue, x), k) == AwaitingInQueue(queue, k) + AwaitingInTask(x.task, k)
  {
    if queue == [] {
    } else if Before(x, queue[0]) {
      assert ([x] + queue)[1..] == queue;
    } else {
      InsertCounts(queue[1..], x, k);
      assert ([queue[0]] + Insert(queue[1..], x))[1..] == Insert(queue[1..], x);
    }
  }

  lemma {:induction false} ScheduleAllCounts(q: Queued, spawned: seq<Timed>, k: Token)
    ensures InQueue(ScheduleAll(q, spawned).queue, k) == InQueue(q.queue, k) + InSpawned(spawned, k)
    ensures AwaitingInQueue(ScheduleAll(q, spawned).queue, k) == AwaitingInQueue(q.queue, k) + AwaitingInSpawned(spawned, k)
  {
    if spawned != [] {
      var init, last := spawned[..|spawned| - 1], spawned[|spawned| - 1];
      ScheduleAllCounts(q, init, k);
      var before := ScheduleAll(q, init);
      InsertCounts(before.queue, Scheduled(last.fireTick, before.nextSeq, last.task), k);
    }
  }

  lemma {:induction false} TaskWithinQueue(queue: seq<Scheduled>, x: Scheduled, k: Token)
    requires x in queue
    ensures InTask(x.task, k) <= InQueue(queue, k)
    ensures AwaitingInTask(x.task, k) <= AwaitingInQueue(queue, k)
  {
    if x != queue[0] { TaskWithinQueue(queue[1..], x, k); }
  }

  lemma {:induction false} AwaitingWithinQueue(queue: seq<Scheduled>, k: Token)
    requires k.Freight?
    ensures AwaitingInQueue(queue, k) <= InQueue(queue, k)
  {
    if queue != [] { AwaitingWithinQueue(queue[1..], k); }
  }

  lemma {:induction false} ScheduleAllMembers(q: Queued, spawned: seq<Timed>, x: Scheduled)
    requires x in ScheduleAll(q, spawned).queue
    ensures x in q.queue || exists i :: 0 <= i < |spawned| && spawned[i] == Timed(x.fireTick, x.task)
  {
    if spawned != [] {
      var init, last := spawned[..|spawned| - 1], spawned[|spawned| - 1];
      var before := ScheduleAll(q, init);
      InsertMembers(before.queue, Scheduled(last.fireTick, before.nextSeq, last.task));
      if x in before.queue {
        ScheduleAllMembers(q, init, x);
        if x !in q.queue {
          var i :| 0 <= i < |init| && init[i] == Timed(x.fireTick, x.task);
          assert spawned[i] == init[i];
        }
      } else {
        assert spawned[|spawned| - 1] == Timed(x.fireTick, x.task);
      }
    }
  }

  // ----- The invariant --------------------------------------------------------------------------------

  function RetiredIn(env: Env, fired: seq<Fired>, k: Token): nat {
    if fired == [] then 0
    else RetiredIn(env, fired[..|fired| - 1], k) + Retired(env, fired[|fired| - 1].rng, fired[|fired| - 1].task, k)
  }

  /** The activities a run keeps going: the batches, the inductions if on, one round trip per trailer. */
  function Sustained(env: Env, k: Token): nat {
    match k
    case Freight(_) => 0
    case Going(Batches) => 1
    case Going(Inductions) => One(env.inductionOn)
    case Going(Trips(t)) => One(IsId(t, env.TrailerCount()))
  }

  /** Queued or in a manifest or gone: together exactly what was issued and what must go on. */
  ghost predicate Conserved(env: Env, h: History) {
    forall k :: InQueue(h.core.queue, k) + InWorld(env, h.core.world, k) + RetiredIn(env, h.fired, k)
                == Issued(env, h.core.world, k) + Sustained(env, k)
  }

  /** A destination is recorded for exactly the packages staged at a spoke or on their way to the center. */
  ghost predicate AwaitingRecorded(env: Env, core: Core) {
    forall k :: AwaitingInQueue(core.queue, k) + InManifests(core.world.pendingAtSpoke, env.spokeCount, k) == Recorded(core.world, k)
  }

  ghost predicate DestinationsAreSpokes(env: Env, w: World) {
    forall p :: p in w.consolidationDest ==> env.IsSpoke(w.consolidationDest[p])
  }

  predicate OnSpoke(env: Env, task: SimTask) { task.DepartTrailer? || task.ArriveTrailer? ==> env.IsSpoke(task.spoke) }

  ghost predicate LegsOnSpokes(env: Env, queue: seq<Scheduled>) { forall x :: x in queue ==> OnSpoke(env, x.task) }

  ghost predicate Books(env: Env, h: History) {
    && Timely(h.core.queue)
    && SubstreamsMatch(env, h.core.rng)
    && Conserved(env, h)
    && AwaitingRecorded(env, h.core)
    && DestinationsAreSpokes(env, h.core.world)
    && LegsOnSpokes(env, h.core.queue)
  }

  // ----- What the books say about queued tasks ----------------------------------------------------------

  lemma {:induction false} MemberCounts(packages: seq<PackageId>, p: PackageId)
    requires p in packages
    ensures CountIn(packages, Freight(p)) >= 1
  {
    if p != packages[|packages| - 1] {
      assert packages == packages[..|packages| - 1] + [packages[|packages| - 1]];
      MemberCounts(packages[..|packages| - 1], p);
    }
  }

  lemma {:induction false} SingleCountsAreDistinct(packages: seq<PackageId>)
    requires forall k :: CountIn(packages, k) <= 1
    ensures NoDuplicates(packages)
  {
    if packages != [] {
      var init, p := packages[..|packages| - 1], packages[|packages| - 1];
      assert packages == init + [p];
      forall k ensures CountIn(init, k) <= 1 {
        assert CountIn(packages, k) <= 1;
      }
      SingleCountsAreDistinct(init);
      if p in init {
        MemberCounts(init, p);
        assert CountIn(packages, Freight(p)) <= 1;
      }
    }
  }

  lemma QueuedIsSound(env: Env, h: History, x: Scheduled)
    requires env.Ok() && Books(env, h) && x in h.core.queue
    ensures Sound(env, h.core.world, x.task)
  {
    var task := x.task;
    hide InQueue, InWorld, RetiredIn, AwaitingInQueue, InManifests, CountIn;
    match task
    case InductPackage(_) => TaskWithinQueue(h.core.queue, x, Going(Inductions));
    case ArriveTrailer(_, _, _, carried, _) =>
      forall k ensures CountIn(carried, k) <= 1 {
        TaskWithinQueue(h.core.queue, x, k);
        CountsFreightOnly(carried, k);
      }
      SingleCountsAreDistinct(carried);
    case ArriveConsolidationAtCenter(_, packages, _) =>
      forall k ensures CountIn(packages, k) <= 1 {
        TaskWithinQueue(h.core.queue, x, k);
        CountsFreightOnly(packages, k);
      }
      SingleCountsAreDistinct(packages);
      forall p | p in packages ensures p in h.core.world.consolidationDest {
        MemberCounts(packages, p);
        TaskWithinQueue(h.core.queue, x, Freight(p));
        assert Recorded(h.core.world, Freight(p)) >= 1;
      }
    case _ =>
  }

  lemma CountsFreightOnly(packages: seq<PackageId>, k: Token)
    ensures k.Going? ==> CountIn(packages, k) == 0
  {
    CountIsMultiplicity(packages, k);
  }

  /** The id of the next induction is not yet in use. */
  lemma NextInductionIsNew(env: Env, h: History)
    requires env.Ok() && Books(env, h)
    ensures External(h.core.world.inductionCounter + 1) !in h.core.world.consolidationDest
  {
    hide InQueue, RetiredIn, AwaitingInQueue, InManifests;
    var k := Freight(External(h.core.world.inductionCounter + 1));
    AwaitingWithinQueue(h.core.queue, k);
    assert Recorded(h.core.world, k) == 0;
  }

  // ----- Every step keeps the books ------------------------------------------------------------------------

  lemma {:induction false} CrossDockKeepsDestinations(env: Env, e: Effect, packages: seq<PackageId>, now: int)
    requires DestinationsAreSpokes(env, e.world)
    ensures DestinationsAreSpokes(env, CrossDock(e, packages, now).world)
  {
    if packages != [] { CrossDockKeepsDestinations(env, e, packages[..|packages| - 1], now); }
  }

  lemma FireKeepsDestinations(env: Env, rng: RngStates, w: World, task: SimTask, now: int)
    requires env.Ok() && DestinationsAreSpokes(env, w)
    ensures DestinationsAreSpokes(env, Fire(env, rng, w, task, now).world)
  {
    hide CreateBatch, Depart, Arrive, CrossDock, StagingUntouched, Draw;
    var e := Effect(rng, w, [], []);
    match task
    case CreatePackageBatch(tick) => CreateBatchKeepsDest(env, e, tick, now);
    case DepartTrailer(t, spoke, departTick) => DepartKeepsDest(env, e, t, spoke, departTick, now);
    case ArriveTrailer(t, spoke, trip, carried, arriveTick) => ArriveKeepsDest(env, e, t, spoke, trip, carried, arriveTick, now);
    case ArriveConsolidationAtCenter(t, packages, trip) =>
      CrossDockKeepsDestinations(env, e.Emit(ArrivalEvents(t, Center, trip, now)), packages, now);
    case _ =>
  }

  lemma CreateBatchKeepsDest(env: Env, e: Effect, tick: int, now: int)
    requires env.Ok()
    ensures CreateBatch(env, e, tick, now).world.consolidationDest == e.world.consolidationDest
  {
    CreateBatchUntouched(env, e, tick, now);
  }

  lemma DepartKeepsDest(env: Env, e: Effect, t: TrailerId, spoke: Hub, departTick: int, now: int)
    requires env.Ok()
    ensures Depart(env, e, t, spoke, departTick, now).world.consolidationDest == e.world.consolidationDest
  {
    hide Depart;
    DepartUntouched(env, e, t, spoke, departTick, now);
  }

  lemma ArriveKeepsDest(env: Env, e: Effect, t: TrailerId, spoke: Hub, trip: TripId, carried: seq<PackageId>, arriveTick: int, now: int)
    ensures Arrive(env, e, t, spoke, trip, carried, arriveTick, now).world.consolidationDest == e.world.consolidationDest
  {
    hide Dock, UnloadPhase, RideOn;
    var docked := Dock(env, e, t, spoke, trip, carried, now);
    var (unloaded, held) := UnloadPhase(env, docked, t, spoke, trip, carried, arriveTick, now);
    DockUntouched(env, e, t, spoke, trip, carried, now);
    UnloadPhaseUntouched(env, docked, t, spoke, trip, carried, arriveTick, now);
    RideOnUntouched(env, unloaded, t, spoke, held, arriveTick, now);
  }

  lemma StepConserves(env: Env, h: History)
    requires env.Ok() && h.core.queue != [] && Books(env, h)
    ensures Conserved(env, StepHistory(env, h)) && AwaitingRecorded(env, StepHistory(env, h).core)
  {
    var head := h.core.queue[0];
    QueuedIsSound(env, h, head);
    NextInductionIsNew(env, h);
    var e := Fire(env, h.core.rng, h.core.world, head.task, head.fireTick);
    var h' := StepHistory(env, h);
    hide Fire, InTask, InWorld, InManifests, Issued, Sustained, Retired, AwaitingInTask, Recorded, Sound;
    assert h'.fired[..|h'.fired| - 1] == h.fired;
    forall k
      ensures InQueue(h'.core.queue, k) + InWorld(env, h'.core.world, k) + RetiredIn(env, h'.fired, k)
              == Issued(env, h'.core.world, k) + Sustained(env, k)
      ensures AwaitingInQueue(h'.core.queue, k) + InManifests(h'.core.world.pendingAtSpoke, env.spokeCount, k)
              == Recorded(h'.core.world, k)
    {
      FireBalances(env, h.core.rng, h.core.world, head.task, head.fireTick, k);
      FireAwaiting(env, h.core.rng, h.core.world, head.task, head.fireTick, k);
      ScheduleAllCounts(Queued(h.core.queue[1..], h.core.nextSeq), e.spawned, k);
    }
  }

  lemma FireKeepsLegs(env: Env, rng: RngStates, w: World, task: SimTask, now: int, i: nat)
    requires env.Ok() && OwnTick(task, now) && OnSpoke(env, task) && i < |Fire(env, rng, w, task, now).spawned|
    ensures OnSpoke(env, Fire(env, rng, w, task, now).spawned[i].task)
  {
    hide Fire;
    FireReschedules(env, rng, w, task, now);
  }

  lemma StepKeepsLegs(env: Env, core: Core)
    requires env.Ok() && core.queue != [] && Timely(core.queue) && LegsOnSpokes(env, core.queue)
    ensures LegsOnSpokes(env, Step(env, core).core.queue)
  {
    hide Fire, OnSpoke, OwnTick, ScheduleAll;
    var head := core.queue[0];
    assert head in core.queue;
    var e := Fire(env, core.rng, core.world, head.task, head.fireTick);
    forall x | x in Step(env, core).core.queue ensures OnSpoke(env, x.task) {
      ScheduleAllMembers(Queued(core.queue[1..], core.nextSeq), e.spawned, x);
      if x in core.queue[1..] {
        assert x in core.queue;
      } else {
        var i :| 0 <= i < |e.spawned| && e.spawned[i] == Timed(x.fireTick, x.task);
        FireKeepsLegs(env, core.rng, core.world, head.task, head.fireTick, i);
      }
    }
  }

  lemma StepKeepsBooks(env: Env, h: History)
    requires env.Ok() && h.core.queue != [] && Books(env, h)
    ensures Books(env, StepHistory(env, h))
  {
    var head := h.core.queue[0];
    StepConserves(env, h);
    StepKeepsLegs(env, h.core);
    StepTerminates(env, h.core, head.fireTick);
    FireKeepsDestinations(env, h.core.rng, h.core.world, head.task, head.fireTick);
    FireKeepsShape(env, h.core.rng, h.core.world, head.task, head.fireTick);
    hide Fire, Conserved, AwaitingRecorded, LegsOnSpokes, DestinationsAreSpokes, Timely, ScheduleAll;
  }

  // ----- The fresh state -------------------------------------------------------------------------------------

  lemma {:induction false} RosterCounts(env: Env, n: nat, k: Token)
    requires env.Ok()
    ensures InSpawned(RosterDepartures(env, n), k) == One(k.Going? && k.activity.Trips? && IsId(k.activity.trailer, n))
    ensures AwaitingInSpawned(RosterDepartures(env, n), k) == 0
  {
    if n > 0 {
      RosterCounts(env, n - 1, k);
      InSpawnedPush(RosterDepartures(env, n - 1), RosterDeparture(env, n - 1), k);
      AwaitingPush(RosterDepartures(env, n - 1), RosterDeparture(env, n - 1), k);
    }
  }

  lemma InitialCounts(env: Env, k: Token)
    requires env.Ok()
    ensures InSpawned(InitialSchedule(env), k) == Sustained(env, k)
    ensures AwaitingInSpawned(InitialSchedule(env), k) == 0
  {
    var n := env.TrailerCount();
    RosterCounts(env, n, k);
    PrependBatch(RosterDepartures(env, n), k);
    var roster := [Timed(0, CreatePackageBatch(0))] + RosterDepartures(env, n);
    if env.inductionOn {
      InSpawnedPush(roster, Timed(INDUCTION_START_TICK, InductPackage(INDUCTION_START_TICK)), k);
      AwaitingPush(roster, Timed(INDUCTION_START_TICK, InductPackage(INDUCTION_START_TICK)), k);
    } else {
      assert roster + [] == roster;
    }
  }

  lemma {:induction false} PrependBatch(spawned: seq<Timed>, k: Token)
    ensures InSpawned([Timed(0, CreatePackageBatch(0))] + spawned, k) == One(k == Going(Batches)) + InSpawned(spawned, k)
    ensures AwaitingInSpawned([Timed(0, CreatePackageBatch(0))] + spawned, k) == AwaitingInSpawned(spawned, k)
  {
    var first := [Timed(0, CreatePackageBatch(0))];
    if spawned == [] {
      assert first + spawned == first && first[..0] == [];
    } else {
      var init, last := spawned[..|spawned| - 1], spawned[|spawned| - 1];
      PrependBatch(init, k);
      assert first + spawned == (first + init) + [last];
      InSpawnedPush(first + init, last, k);
      AwaitingPush(first + init, last, k);
    }
  }

  lemma {:induction false} EmptyManifests(env: Env, n: nat, k: Token)
    ensures InManifests(WithSpokes(env, map[]), n, k) == 0
  {
    if n > 0 { EmptyManifests(env, n - 1, k); }
  }

  lemma BootstrapCounts(env: Env, k: Token)
    requires env.Ok()
    ensures var queue := ScheduleAll(Queued([], 0), InitialSchedule(env)).queue;
            InQueue(queue, k) == Sustained(env, k) && AwaitingInQueue(queue, k) == 0
  {
    hide InitialSchedule;
    InitialCounts(env, k);
    ScheduleAllCounts(Queued([], 0), InitialSchedule(env), k);
  }

  lemma ScheduledOnSpoke(env: Env, i: nat)
    requires env.Ok() && i < |InitialSchedule(env)|
    ensures OnSpoke(env, InitialSchedule(env)[i].task)
  {
    var n := env.TrailerCount();
    RosterDeparturesTimely(env, n);
    hide RosterDepartures;
    assert 0 < i <= n ==> InitialSchedule(env)[i] == RosterDeparture(env, i - 1);
  }

  lemma BootstrapLegs(env: Env)
    requires env.Ok()
    ensures LegsOnSpokes(env, ScheduleAll(Queued([], 0), InitialSchedule(env)).queue)
  {
    hide InitialSchedule, ScheduleAll, OnSpoke;
    forall x | x in ScheduleAll(Queued([], 0), InitialSchedule(env)).queue ensures OnSpoke(env, x.task) {
      ScheduleAllMembers(Queued([], 0), InitialSchedule(env), x);
      var i :| 0 <= i < |InitialSchedule(env)| && InitialSchedule(env)[i] == Timed(x.fireTick, x.task);
      ScheduledOnSpoke(env, i);
    }
  }

  lemma BootstrapBooks(env: Env, seed: Word)
    requires env.Ok()
    ensures Books(env, After(env, seed, 0))
  {
    hide InitialSchedule, ScheduleAll, WithSpokes, InQueue, InManifests, AwaitingInQueue;
    var h := After(env, seed, 0);
    BootstrapTimely(env, seed);
    BootstrapLegs(env);
    forall k
      ensures InQueue(h.core.queue, k) == Sustained(env, k)
      ensures AwaitingInQueue(h.core.queue, k) == 0
      ensures InManifests(WithSpokes(env, map[]), env.spokeCount, k) == 0
    {
      BootstrapCounts(env, k);
      EmptyManifests(env, env.spokeCount, k);
    }
  }

  /** The books balance in every reachable state. */
  lemma {:induction false} BooksAlwaysBalance(env: Env, seed: Word, n: nat)
    requires env.Ok()
    ensures Books(env, After(env, seed, n))
  {
    if n == 0 {
      BootstrapBooks(env, seed);
    } else {
      BooksAlwaysBalance(env, seed, n - 1);
      hide Books, StepHistory, Bootstrap;
      if After(env, seed, n - 1).core.queue != [] {
        StepKeepsBooks(env, After(env, seed, n - 1));
      }
    }
  }
}
