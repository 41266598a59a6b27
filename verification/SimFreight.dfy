/**
 * Conservation, one firing at a time. A token is a package or an activity the queue sustains (the
 * batches, the inductions, the round trip of each trailer). Whatever fires, the tokens queued, waiting
 * in manifests and retired change by exactly what was newly issued: nothing is lost, and nothing is in
 * two places. `SimBooks` carries this over whole runs.
 */
module SimFreight {
  import opened Generators
  import opened SimTypes
  import opened EventQueues
  import opened Simulation
  import opened SimRuns

  /** What is conserved: a package, or one of the queue's self-sustaining activities. */
  datatype Token = Freight(package: PackageId) | Going(activity: Activity)

  // ----- Where a token can be ------------------------------------------------------------

  function One(b: bool): nat { if b then 1 else 0 }

  function CountIn(packages: seq<PackageId>, k: Token): nat {
    if packages == [] then 0
    else CountIn(packages[..|packages| - 1], k) + One(k == Freight(packages[|packages| - 1]))
  }

  /** Aboard a trailer that is under way, in a pending delivery, or an activity's next task. */
  function InTask(task: SimTask, k: Token): nat {
    match task
    case ArriveTrailer(t, _, _, carried, _) => CountIn(carried, k) + One(k == Going(Trips(t)))
    case ArriveOverCarriedAtCenter(_, p, _) => One(k == Freight(p))
    case ArriveConsolidationAtCenter(_, packages, _) => CountIn(packages, k)
    case DeliverPackage(p, _, _, _) => One(k == Freight(p))
    case MidLegStops(_, _, _, _, _) => 0
    case _ => One(k == Going(ActivityOf(task)))
  }

  function InQueue(queue: seq<Scheduled>, k: Token): nat {
    if queue == [] then 0 else InTask(queue[0].task, k) + InQueue(queue[1..], k)
  }

  function InSpawned(spawned: seq<Timed>, k: Token): nat {
    if spawned == [] then 0
    else InSpawned(spawned[..|spawned| - 1], k) + InTask(spawned[|spawned| - 1].task, k)
  }

  function InManifests(m: map<Hub, seq<PackageId>>, spokes: nat, k: Token): nat {
    if spokes == 0 then 0 else InManifests(m, spokes - 1, k) + CountIn(Manifest(m, Spoke(spokes - 1)), k)
  }

  function InWorld(env: Env, w: World, k: Token): nat {
    InManifests(w.pendingBySpoke, env.spokeCount, k) + InManifests(w.pendingAtSpoke, env.spokeCount, k)
  }

  /** Center packages always travel; inducted ones only when consolidation picks them up. */
  function Issued(env: Env, w: World, k: Token): nat {
    match k
    case Freight(Created(n)) => One(1 <= n <= w.packageCounter)
    case Freight(External(n)) => One(env.consolidationOn && 1 <= n <= w.inductionCounter)
    case Going(_) => 0
  }

  // ----- The books of one handler -----------------------------------------------------------

  /** Found in the manifests and the freshly scheduled tasks, less what was issued. */
  function Ledger(env: Env, e: Effect, k: Token): int {
    InSpawned(e.spawned, k) + InWorld(env, e.world, k) - Issued(env, e.world, k)
  }

  /** The handler stages that touch no freight. */
  predicate SameFreight(e: Effect, r: Effect) {
    && r.spawned == e.spawned
    && r.world.pendingBySpoke == e.world.pendingBySpoke
    && r.world.pendingAtSpoke == e.world.pendingAtSpoke
    && r.world.packageCounter == e.world.packageCounter
    && r.world.inductionCounter == e.world.inductionCounter
    && r.world.consolidationDest == e.world.consolidationDest
    && r.world.slaDeadline == e.world.slaDeadline
    && r.rng.outbound == e.rng.outbound
  }

  lemma CountPush(packages: seq<PackageId>, p: PackageId, k: Token)
    ensures CountIn(packages + [p], k) == CountIn(packages, k) + One(k == Freight(p))
  {
    assert (packages + [p])[..|packages|] == packages;
  }

  lemma {:induction false} InManifestsOther(m: map<Hub, seq<PackageId>>, h: Hub, ps: seq<PackageId>, spokes: nat, k: Token)
    requires h.Spoke? ==> h.index >= spokes
    ensures InManifests(m[h := ps], spokes, k) == InManifests(m, spokes, k)
  {
    if spokes > 0 { InManifestsOther(m, h, ps, spokes - 1, k); }
  }

  lemma {:induction false} InManifestsUpdate(m: map<Hub, seq<PackageId>>, h: Hub, ps: seq<PackageId>, spokes: nat, k: Token)
    requires h.Spoke? && h.index < spokes
    ensures InManifests(m[h := ps], spokes, k) + CountIn(Manifest(m, h), k) == InManifests(m, spokes, k) + CountIn(ps, k)
  {
    if h.index == spokes - 1 {
      InManifestsOther(m, h, ps, spokes - 1, k);
    } else {
      InManifestsUpdate(m, h, ps, spokes - 1, k);
    }
  }

  lemma InManifestsPush(m: map<Hub, seq<PackageId>>, h: Hub, p: PackageId, spokes: nat, k: Token)
    requires h.Spoke? && h.index < spokes
    ensures InManifests(PushTo(m, h, p), spokes, k) == InManifests(m, spokes, k) + One(k == Freight(p))
  {
    InManifestsUpdate(m, h, Manifest(m, h) + [p], spokes, k);
    CountPush(Manifest(m, h), p, k);
  }

  lemma InSpawnedPush(spawned: seq<Timed>, x: Timed, k: Token)
    ensures InSpawned(spawned + [x], k) == InSpawned(spawned, k) + InTask(x.task, k)
  {
    assert (spawned + [x])[..|spawned|] == spawned;
  }

  // ----- Freight creation -----------------------------------------------------------------------

  lemma MakePackageBalances(env: Env, e: Effect, now: int, k: Token)
    requires env.Ok()
    ensures Ledger(env, MakePackage(env, e, now), k) == Ledger(env, e, k)
  {
    hide Draw, Next, InManifests, PushTo;
    var id, dest := Created(e.world.packageCounter + 1), Spoke(Draw(env, e.rng.base, env.spokeCount));
    InManifestsPush(e.world.pendingBySpoke, dest, id, env.spokeCount, k);
  }

  lemma {:induction false} MakePackagesBalances(env: Env, e: Effect, count: nat, now: int, k: Token)
    requires env.Ok()
    ensures Ledger(env, MakePackages(env, e, count, now), k) == Ledger(env, e, k)
  {
    if count > 0 {
      MakePackagesBalances(env, e, count - 1, now, k);
      MakePackageBalances(env, MakePackages(env, e, count - 1, now), now, k);
    }
  }

  lemma CreateBatchBalances(env: Env, e: Effect, tick: int, now: int, k: Token)
    requires env.Ok()
    ensures Ledger(env, CreateBatch(env, e, tick, now), k) == Ledger(env, e, k) + One(k == Going(Batches))
  {
    var next := Timed(tick + PACKAGE_INTERVAL_TICKS, CreatePackageBatch(tick + PACKAGE_INTERVAL_TICKS));
    if QuietWindow(env, tick) {
      InSpawnedPush(e.spawned, next, k);
    } else {
      var (w', count) := BatchSize(env, e.rng.base);
      var drawn := e.(rng := e.rng.(base := w'));
      MakePackagesBalances(env, drawn, Hos.Max(0, count), now, k);
      InSpawnedPush(MakePackages(env, drawn, Hos.Max(0, count), now).spawned, next, k);
    }
  }

  lemma InductBalances(env: Env, e: Effect, tick: int, now: int, k: Token)
    requires env.Ok() && env.inductionOn && e.rng.induction.Some?
    ensures Ledger(env, Induct(env, e, tick, now), k) == Ledger(env, e, k) + One(k == Going(Inductions))
  {
    hide Draw, Next, OtherSpoke, SlaBuffer, PushTo, InManifests, InSpawned;
    var from := Spoke(Draw(env, e.rng.induction.value, env.spokeCount));
    InManifestsPush(e.world.pendingAtSpoke, from, External(e.world.inductionCounter + 1), env.spokeCount, k);
    InSpawnedPush(e.spawned, Timed(tick + INDUCTION_INTERVAL_TICKS, InductPackage(tick + INDUCTION_INTERVAL_TICKS)), k);
  }

  // ----- Departures -------------------------------------------------------------------------------

  lemma DispatchSameFreight(env: Env, e: Effect, t: TrailerId, trip: TripId, transit: int, now: int)
    ensures SameFreight(e, Dispatch(env, e, t, trip, transit, now))
  {
    hide FirstFree, LegalMinutes, RemoveFirst, ClockOf;
  }

  lemma RfidSameFreight(env: Env, e: Effect, reader: ReaderType, t: TrailerId, hub: Hub, packages: seq<PackageId>, now: int)
    ensures SameFreight(e, RfidEffect(env, e, reader, t, hub, packages, now))
  {
  }

  lemma DriveOutSameFreight(env: Env, e: Effect, t: TrailerId, transit: nat, now: int)
    requires env.Ok()
    ensures SameFreight(e, DriveOut(env, e, t, transit, now).effect)
  {
    hide LegPauses;
  }

  lemma RollBalances(env: Env, e: Effect, t: TrailerId, spoke: Hub, now: int, k: Token)
    requires env.IsSpoke(spoke)
    ensures Ledger(env, Roll(env, e, t, spoke, now).0, k)
            == Ledger(env, e, k) - CountIn(Manifest(e.world.pendingBySpoke, spoke), k)
  {
    hide LoadScans;
    InManifestsUpdate(e.world.pendingBySpoke, spoke, [], env.spokeCount, k);
  }

  lemma UnderwayBalances(env: Env, a: Accrual, t: TrailerId, spoke: Hub, trip: TripId, loaded: seq<PackageId>,
                         transit: nat, departTick: int, now: int, k: Token)
    ensures Ledger(env, Underway(env, a, t, spoke, trip, loaded, transit, departTick, now), k)
            == Ledger(env, a.effect, k) + CountIn(loaded, k) + One(k == Going(Trips(t)))
  {
    UnderwayMovesNothing(env, a, t, spoke, trip, loaded, transit, departTick, now);
    var r := Underway(env, a, t, spoke, trip, loaded, transit, departTick, now);
    hide Underway, CountIn, InManifests;
    var last := r.spawned[|r.spawned| - 1];
    var init := r.spawned[..|r.spawned| - 1];
    if init != a.effect.spawned {
      InSpawnedPush(a.effect.spawned, init[|init| - 1], k);
    }
  }

  /** The end of a departure schedules stops, which carry nothing, and then the arrival with the load. */
  lemma UnderwayMovesNothing(env: Env, a: Accrual, t: TrailerId, spoke: Hub, trip: TripId, loaded: seq<PackageId>,
                             transit: nat, departTick: int, now: int)
    ensures var r := Underway(env, a, t, spoke, trip, loaded, transit, departTick, now);
            && SameFreight(a.effect, r.(spawned := a.effect.spawned))
            && |r.spawned| > 0
            && var last, init := r.spawned[|r.spawned| - 1], r.spawned[..|r.spawned| - 1];
            && last.task.ArriveTrailer? && last.task.trailer == t && last.task.carried == loaded && last.task.spoke == spoke
            && (init == a.effect.spawned
                || (|init| > 0 && init[|init| - 1].task.MidLegStops? && init == a.effect.spawned + [init[|init| - 1]]))
  {
    hide AccrueMiles, DriverOf;
    MilesTouchOnlyTheOdometer(env, a.effect.world, t, spoke);
  }

  lemma DepartBalances(env: Env, e: Effect, t: TrailerId, spoke: Hub, departTick: int, now: int, k: Token)
    requires env.Ok() && env.IsSpoke(spoke)
    ensures Ledger(env, Depart(env, e, t, spoke, departTick, now), k) == Ledger(env, e, k) + One(k == Going(Trips(t)))
  {
    hide Roll, Dispatch, RfidEffect, DriveOut, Underway, Manifest, InWorld, InSpawned;
    RollBalances(env, e, t, spoke, now, k);
    var (rolled, transit) := Roll(env, e, t, spoke, now);
    var trip, loaded := e.world.tripCounter + 1, Manifest(e.world.pendingBySpoke, spoke);
    var dispatched := Dispatch(env, rolled, t, trip, transit, now);
    var read := RfidEffect(env, dispatched, Portal, t, Center, loaded, now);
    var out := DriveOut(env, read, t, transit, now);
    DispatchSameFreight(env, rolled, t, trip, transit, now);
    RfidSameFreight(env, dispatched, Portal, t, Center, loaded, now);
    DriveOutSameFreight(env, read, t, transit, now);
    SameFreightSameLedger(env, rolled, out.effect, k);
    UnderwayBalances(env, out, t, spoke, trip, loaded, transit, departTick, now, k);
  }

  lemma SameFreightSameLedger(env: Env, e: Effect, r: Effect, k: Token)
    requires SameFreight(e, r)
    ensures Ledger(env, r, k) == Ledger(env, e, k)
  {
  }

  // ----- Arrivals -----------------------------------------------------------------------------------

  /** The packages that come off at the spoke: all but the one held back. */
  function ComingOff(carried: seq<PackageId>, held: Option<PackageId>): seq<PackageId> {
    if carried == [] then []
    else
      var before := ComingOff(carried[..|carried| - 1], held);
      var p := carried[|carried| - 1];
      if held == Some(p) then before else before + [p]
  }

  /** Deliveries are scheduled only with outbound delivery on; otherwise the unload is the end. */
  predicate Delivers(env: Env, rng: RngStates) { env.outboundOn && rng.outbound.Some? }

  lemma UnloadOneBalances(env: Env, e: Effect, p: PackageId, spoke: Hub, arriveTick: int, now: int, k: Token)
    ensures var r := UnloadOne(env, e, p, spoke, arriveTick, now);
            && r.world == e.world
            && Delivers(env, r.rng) == Delivers(env, e.rng)
            && InSpawned(r.spawned, k) == InSpawned(e.spawned, k) + if Delivers(env, e.rng) then One(k == Freight(p)) else 0
  {
    hide Draw, UnloadEvents;
    if Delivers(env, e.rng) {
      var r := UnloadOne(env, e, p, spoke, arriveTick, now);
      InSpawnedPush(e.spawned, r.spawned[|e.spawned|], k);
    }
  }

  lemma {:induction false} UnloadAllBalances(
    env: Env, e: Effect, carried: seq<PackageId>, held: Option<PackageId>, spoke: Hub, arriveTick: int, now: int, k: Token)
    ensures var r := UnloadAll(env, e, carried, held, spoke, arriveTick, now);
            && r.world == e.world
            && Delivers(env, r.rng) == Delivers(env, e.rng)
            && InSpawned(r.spawned, k)
               == InSpawned(e.spawned, k) + if Delivers(env, e.rng) then CountIn(ComingOff(carried, held), k) else 0
  {
    hide UnloadOne, InSpawned, Delivers;
    if carried != [] {
      var init, p := carried[..|carried| - 1], carried[|carried| - 1];
      UnloadAllBalances(env, e, init, held, spoke, arriveTick, now, k);
      CountPush(ComingOff(init, held), p, k);
      UnloadOneBalances(env, UnloadAll(env, e, init, held, spoke, arriveTick, now), p, spoke, arriveTick, now, k);
    }
  }

  /** Nothing is carried twice. */
  ghost predicate NoDuplicates(packages: seq<PackageId>) {
    forall i, j :: 0 <= i < j < |packages| ==> packages[i] != packages[j]
  }

  lemma {:induction false} ComingOffCount(carried: seq<PackageId>, held: Option<PackageId>, k: Token)
    ensures held.None? ==> ComingOff(carried, held) == carried
    ensures held.Some? ==> CountIn(ComingOff(carried, held), k) == if k == Freight(held.value) then 0 else CountIn(carried, k)
  {
    if carried != [] {
      var init, p := carried[..|carried| - 1], carried[|carried| - 1];
      ComingOffCount(init, held, k);
      assert carried == init + [p];
      CountPush(ComingOff(init, held), p, k);
    }
  }

  lemma {:induction false} CountOfDistinct(packages: seq<PackageId>, k: Token)
    requires NoDuplicates(packages)
    ensures CountIn(packages, k) == One(k.Freight? && k.package in packages)
  {
    if packages != [] {
      var init, p := packages[..|packages| - 1], packages[|packages| - 1];
      CountOfDistinct(init, k);
      assert packages == init + [p];
    }
  }

  /** What was carried is what comes off plus what rides on. */
  lemma CarriedSplits(carried: seq<PackageId>, held: Option<PackageId>, k: Token)
    requires NoDuplicates(carried) && (held.Some? ==> held.value in carried)
    ensures CountIn(carried, k) == CountIn(ComingOff(carried, held), k) + One(held.Some? && k == Freight(held.value))
  {
    ComingOffCount(carried, held, k);
    CountOfDistinct(carried, k);
  }

  /** Effects that differ in one scheduled task and nowhere in the freight. */
  predicate OneMoreTask(e: Effect, r: Effect, task: SimTask) {
    && |r.spawned| == |e.spawned| + 1 && r.spawned[..|e.spawned|] == e.spawned && r.spawned[|e.spawned|].task == task
    && r.world.packageCounter == e.world.packageCounter
    && r.world.inductionCounter == e.world.inductionCounter
  }

  lemma LedgerOneMore(env: Env, e: Effect, r: Effect, task: SimTask, k: Token)
    requires OneMoreTask(e, r, task)
    ensures Ledger(env, r, k) == Ledger(env, e, k) + InTask(task, k) + InWorld(env, r.world, k) - InWorld(env, e.world, k)
  {
    hide InWorld, InTask;
    InSpawnedPush(e.spawned, r.spawned[|e.spawned|], k);
    assert e.spawned + [r.spawned[|e.spawned|]] == r.spawned;
  }

  lemma RideOnSchedules(env: Env, e: Effect, t: TrailerId, spoke: Hub, p: PackageId, arriveTick: int, now: int)
    ensures var r := RideOn(env, e, t, spoke, Some(p), arriveTick, now);
      && OneMoreTask(e, r, ArriveOverCarriedAtCenter(t, p, e.world.tripCounter + 1))
      && r.world.pendingBySpoke == e.world.pendingBySpoke && r.world.pendingAtSpoke == e.world.pendingAtSpoke
  {
  }

  lemma RideOnBalances(env: Env, e: Effect, t: TrailerId, spoke: Hub, held: Option<PackageId>, arriveTick: int, now: int, k: Token)
    ensures Ledger(env, RideOn(env, e, t, spoke, held, arriveTick, now), k)
            == Ledger(env, e, k) + One(held.Some? && k == Freight(held.value))
  {
    if held.Some? {
      hide InManifests, RideOn, Ledger, OneMoreTask;
      var r := RideOn(env, e, t, spoke, held, arriveTick, now);
      RideOnSchedules(env, e, t, spoke, held.value, arriveTick, now);
      LedgerOneMore(env, e, r, ArriveOverCarriedAtCenter(t, held.value, e.world.tripCounter + 1), k);
    }
  }

  lemma {:induction false} InsertIdCount(env: Env, p: PackageId, ids: seq<PackageId>)
    ensures multiset(InsertId(env, p, ids)) == multiset(ids) + multiset{p}
  {
    if ids != [] {
      assert ids == [ids[0]] + ids[1..];
      if !env.idBefore(p, ids[0]) { InsertIdCount(env, p, ids[1..]); }
    }
  }

  lemma {:induction false} SortIdsCount(env: Env, ids: seq<PackageId>)
    ensures multiset(SortIds(env, ids)) == multiset(ids)
  {
    if ids != [] {
      SortIdsCount(env, ids[..|ids| - 1]);
      InsertIdCount(env, ids[|ids| - 1], SortIds(env, ids[..|ids| - 1]));
      assert ids == ids[..|ids| - 1] + [ids[|ids| - 1]];
    }
  }

  lemma {:induction false} CountIsMultiplicity(packages: seq<PackageId>, k: Token)
    ensures CountIn(packages, k) == if k.Freight? then multiset(packages)[k.package] else 0
  {
    if packages != [] {
      CountIsMultiplicity(packages[..|packages| - 1], k);
      assert packages == packages[..|packages| - 1] + [packages[|packages| - 1]];
    }
  }

  lemma ConsolidateSchedules(env: Env, e: Effect, t: TrailerId, spoke: Hub, arriveTick: int, now: int)
    requires env.consolidationOn
    ensures var r := Consolidate(env, e, t, spoke, arriveTick, now);
      && OneMoreTask(e, r, ArriveConsolidationAtCenter(t, SortIds(env, Manifest(e.world.pendingAtSpoke, spoke)), e.world.tripCounter + 1))
      && r.world.pendingBySpoke == e.world.pendingBySpoke
      && r.world.pendingAtSpoke == e.world.pendingAtSpoke[spoke := []]
  {
    hide LoadScans, SortIds;
  }

  /** Emptying a staged manifest takes its packages out of the world. */
  lemma StagedLeaves(env: Env, w: World, r: World, spoke: Hub, k: Token)
    requires env.IsSpoke(spoke)
    requires r.pendingBySpoke == w.pendingBySpoke && r.pendingAtSpoke == w.pendingAtSpoke[spoke := []]
    ensures InWorld(env, r, k) + CountIn(Manifest(w.pendingAtSpoke, spoke), k) == InWorld(env, w, k)
  {
    hide InManifests, CountIn;
    InManifestsUpdate(w.pendingAtSpoke, spoke, [], env.spokeCount, k);
    CountOfNone(k);
  }

  lemma SortedCount(env: Env, ps: seq<PackageId>, k: Token)
    ensures CountIn(SortIds(env, ps), k) == CountIn(ps, k)
  {
    hide SortIds, CountIn;
    SortIdsCount(env, ps);
    CountIsMultiplicity(ps, k);
    CountIsMultiplicity(SortIds(env, ps), k);
  }

  /** The whole staged manifest goes into one pending arrival: no second trailer can take it. */
  lemma ConsolidateBalances(env: Env, e: Effect, t: TrailerId, spoke: Hub, arriveTick: int, now: int, k: Token)
    requires env.IsSpoke(spoke)
    ensures Ledger(env, Consolidate(env, e, t, spoke, arriveTick, now), k) == Ledger(env, e, k)
  {
    if env.consolidationOn {
      hide InWorld, Consolidate, Ledger, OneMoreTask, CountIn, SortIds;
      var staged := Manifest(e.world.pendingAtSpoke, spoke);
      var r := Consolidate(env, e, t, spoke, arriveTick, now);
      ConsolidateSchedules(env, e, t, spoke, arriveTick, now);
      LedgerOneMore(env, e, r, ArriveConsolidationAtCenter(t, SortIds(env, staged), e.world.tripCounter + 1), k);
      SortedCount(env, staged, k);
      StagedLeaves(env, e.world, r.world, spoke, k);
    }
  }

  lemma CountOfNone(k: Token)
    ensures CountIn([], k) == 0
  {
  }

  lemma TurnAroundBalances(env: Env, e: Effect, t: TrailerId, spoke: Hub, arriveTick: int, k: Token)
    ensures Ledger(env, TurnAround(env, e, t, spoke, arriveTick), k) == Ledger(env, e, k) + One(k == Going(Trips(t)))
  {
    hide InManifests;
    var r := TurnAround(env, e, t, spoke, arriveTick);
    InSpawnedPush(e.spawned, r.spawned[|e.spawned|], k);
  }

  /** Which package an arrival would hold back, read off the over-carry word alone. */
  function HeldBack(env: Env, rng: RngStates, carried: seq<PackageId>): Option<PackageId> {
    HoldBack(env, Effect(rng, FreshWorld(env), [], []), carried).1
  }

  lemma UnloadPhaseBalances(env: Env, e: Effect, t: TrailerId, spoke: Hub, trip: TripId, carried: seq<PackageId>,
                            arriveTick: int, now: int, k: Token)
    ensures var (r, held) := UnloadPhase(env, e, t, spoke, trip, carried, arriveTick, now);
            && held == HeldBack(env, e.rng, carried)
            && (held.Some? ==> held.value in carried)
            && Ledger(env, r, k) == Ledger(env, e, k) + if Delivers(env, e.rng) then CountIn(ComingOff(carried, held), k) else 0
  {
    hide UnloadAll, InManifests, ComingOff, CountIn;
    var (drawn, held) := HoldBack(env, e, carried);
    UnloadAllBalances(env, drawn, carried, held, spoke, arriveTick, now, k);
  }

  lemma DockSameFreight(env: Env, e: Effect, t: TrailerId, spoke: Hub, trip: TripId, carried: seq<PackageId>, now: int)
    ensures var r := Dock(env, e, t, spoke, trip, carried, now);
            && SameFreight(e, r) && HeldBack(env, r.rng, carried) == HeldBack(env, e.rng, carried)
  {
  }

  lemma ArriveBalances(env: Env, e: Effect, t: TrailerId, spoke: Hub, trip: TripId, carried: seq<PackageId>,
                       arriveTick: int, now: int, k: Token)
    requires env.IsSpoke(spoke) && NoDuplicates(carried)
    ensures Ledger(env, Arrive(env, e, t, spoke, trip, carried, arriveTick, now), k)
            == Ledger(env, e, k) + CountIn(carried, k) + One(k == Going(Trips(t)))
               - if Delivers(env, e.rng) then 0 else CountIn(ComingOff(carried, HeldBack(env, e.rng, carried)), k)
  {
    hide Dock, UnloadPhase, RideOn, Consolidate, TurnAround, Ledger, HeldBack, ComingOff, CountIn;
    DockSameFreight(env, e, t, spoke, trip, carried, now);
    var docked := Dock(env, e, t, spoke, trip, carried, now);
    SameFreightSameLedger(env, e, docked, k);
    UnloadPhaseBalances(env, docked, t, spoke, trip, carried, arriveTick, now, k);
    var (unloaded, held) := UnloadPhase(env, docked, t, spoke, trip, carried, arriveTick, now);
    CarriedSplits(carried, held, k);
    RideOnBalances(env, unloaded, t, spoke, held, arriveTick, now, k);
    var ridden := RideOn(env, unloaded, t, spoke, held, arriveTick, now);
    ConsolidateBalances(env, ridden, t, spoke, arriveTick, now, k);
    TurnAroundBalances(env, Consolidate(env, ridden, t, spoke, arriveTick, now), t, spoke, arriveTick, k);
  }

  // ----- The cross-dock -------------------------------------------------------------------------------

  /** Every package of the list has a spoke recorded as its onward destination. */
  ghost predicate Onward(env: Env, dest: map<PackageId, Hub>, packages: seq<PackageId>) {
    forall p :: p in packages ==> p in dest && env.IsSpoke(dest[p])
  }

  lemma CrossDockOneBalances(env: Env, e: Effect, p: PackageId, now: int, k: Token)
    requires p in e.world.consolidationDest && env.IsSpoke(e.world.consolidationDest[p])
    ensures var r := CrossDockOne(e, p, now);
            && Ledger(env, r, k) == Ledger(env, e, k) + One(k == Freight(p))
            && r.world.pendingAtSpoke == e.world.pendingAtSpoke
            && r.world.consolidationDest == e.world.consolidationDest - {p}
  {
    hide UnloadEvents, InManifests, PushTo;
    InManifestsPush(e.world.pendingBySpoke, e.world.consolidationDest[p], p, env.spokeCount, k);
  }

  lemma {:induction false} CrossDockBalances(env: Env, e: Effect, packages: seq<PackageId>, now: int, k: Token)
    requires NoDuplicates(packages) && Onward(env, e.world.consolidationDest, packages)
    ensures var r := CrossDock(e, packages, now);
            && Ledger(env, r, k) == Ledger(env, e, k) + CountIn(packages, k)
            && r.world.pendingAtSpoke == e.world.pendingAtSpoke
            && r.world.consolidationDest == e.world.consolidationDest - (set p | p in packages)
  {
    hide CrossDockOne, Ledger;
    if packages != [] {
      var init, p := packages[..|packages| - 1], packages[|packages| - 1];
      assert packages == init + [p];
      CrossDockBalances(env, e, init, now, k);
      CrossDockOneBalances(env, CrossDock(e, init, now), p, now, k);
    }
  }

  /** The "no onward destination" throw cannot happen to such a list. */
  lemma {:induction false} OnwardNeverThrows(env: Env, dest: map<PackageId, Hub>, packages: seq<PackageId>)
    requires NoDuplicates(packages) && Onward(env, dest, packages)
    ensures !CrossDockThrows(dest, packages)
  {
    if packages != [] {
      OnwardNeverThrows(env, dest - {packages[0]}, packages[1..]);
    }
  }

  // ----- One task ---------------------------------------------------------------------------------------

  /** Where a token leaves the books: delivered, unloaded for good, or dropped back at the center. */
  function Retired(env: Env, rng: RngStates, task: SimTask, k: Token): nat {
    match task
    case ArriveTrailer(_, _, _, carried, _) =>
      if Delivers(env, rng) then 0 else CountIn(ComingOff(carried, HeldBack(env, rng, carried)), k)
    case ArriveOverCarriedAtCenter(_, p, _) => One(k == Freight(p))
    case DeliverPackage(p, _, _, _) => One(k == Freight(p))
    case _ => 0
  }

  /** The task can only have come from this network, and its freight is what it says. */
  ghost predicate Sound(env: Env, w: World, task: SimTask) {
    match task
    case InductPackage(_) => env.inductionOn
    case DepartTrailer(_, spoke, _) => env.IsSpoke(spoke)
    case ArriveTrailer(_, spoke, _, carried, _) => env.IsSpoke(spoke) && NoDuplicates(carried)
    case ArriveConsolidationAtCenter(_, packages, _) => NoDuplicates(packages) && Onward(env, w.consolidationDest, packages)
    case _ => true
  }

  /** Firing a sound task moves tokens, issues some and retires some, and loses none. */
  lemma FireBalances(env: Env, rng: RngStates, w: World, task: SimTask, now: int, k: Token)
    requires env.Ok() && Sound(env, w, task) && (env.inductionOn ==> rng.induction.Some?)
    ensures var r := Fire(env, rng, w, task, now);
            InSpawned(r.spawned, k) + InWorld(env, r.world, k) + Retired(env, rng, task, k) + Issued(env, w, k)
            == InTask(task, k) + InWorld(env, w, k) + Issued(env, r.world, k)
  {
    hide CreateBatch, Induct, Depart, Arrive, Deliver, CrossDock, InWorld, ComingOff, HeldBack, CountIn, NoDuplicates, Onward;
    var e := Effect(rng, w, [], []);
    match task
    case CreatePackageBatch(tick) => CreateBatchBalances(env, e, tick, now, k);
    case InductPackage(tick) => InductBalances(env, e, tick, now, k);
    case DepartTrailer(t, spoke, departTick) => DepartBalances(env, e, t, spoke, departTick, now, k);
    case ArriveTrailer(t, spoke, trip, carried, arriveTick) => ArriveBalances(env, e, t, spoke, trip, carried, arriveTick, now, k);
    case ArriveConsolidationAtCenter(t, packages, trip) =>
      var docked := e.Emit(ArrivalEvents(t, Center, trip, now));
      CrossDockBalances(env, docked, packages, now, k);
      SameFreightSameLedger(env, e, docked, k);
    case DeliverPackage(p, hub, deadline, _) => DeliverSameFreight(env, e, p, hub, deadline, now, k);
    case _ =>
  }

  lemma DeliverSameFreight(env: Env, e: Effect, p: PackageId, hub: Hub, deadline: Option<int>, now: int, k: Token)
    ensures var r := Deliver(env, e, p, hub, deadline, now);
            r.spawned == e.spawned && Ledger(env, r, k) == Ledger(env, e, k)
  {
  }
}
