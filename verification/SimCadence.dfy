/**
 * When freight appears and what it is: batches every quarter of an hour outside the quiet window, inductions
 * every half hour, each package three draws of its stream; which trailers leave when a network is opened; what
 * the stops on the road log; and that a captured continuation is a cut, with nothing behind it still to come.
 */
module SimCadence {
  import Hos
  import opened Generators
  import opened SimTypes
  import opened EventQueues
  import opened Simulation
  import opened SimRuns
  import opened SimFreight
  import opened SimBooks
  import opened SimChunks
  import opened SimJourneys
  import opened SimTimeline
  import opened SimLegs
  import opened SimArrivals

  // ----- A batch, package by package ---------------------------------------------------------------

  /** The two events of the `j`-th package of a batch, from draws `3j`, `3j + 1` and `3j + 2`. */
  function Appears(env: Env, w: Word, first: nat, j: nat, at: int): seq<SimEvent>
    requires env.Ok()
  {
    var p := Created(first + j);
    [SimEvent(PackageStream(p), PackageCreated(p, Spoke(Draw(env, Drawn(env, w, 3 * j), env.spokeCount)),
                                               Draw(env, Drawn(env, w, 3 * j + 1), 3), 1 + Draw(env, Drawn(env, w, 3 * j + 2), 50), env.rfidOn), at),
     SimEvent(PackageStream(p), PackageScanned(p, Center, Inbound), at)]
  }

  function AllAppear(env: Env, w: Word, first: nat, count: nat, at: int): seq<SimEvent>
    requires env.Ok()
  {
    if count == 0 then [] else AllAppear(env, w, first, count - 1, at) + Appears(env, w, first, count - 1, at)
  }

  lemma ThreeMore(env: Env, w: Word, n: nat)
    ensures Drawn(env, w, n + 1) == Next(env, Drawn(env, w, n))
    ensures Drawn(env, w, n + 2) == Next(env, Next(env, Drawn(env, w, n)))
    ensures Drawn(env, w, n + 3) == Next(env, Next(env, Next(env, Drawn(env, w, n))))
  {
    hide Drawn, Next;
    DrawnOneMore(env, w, n);
    DrawnOneMore(env, w, n + 1);
    DrawnOneMore(env, w, n + 2);
  }

  lemma MakePackageIs(env: Env, e: Effect, now: int)
    requires env.Ok()
    ensures var r, w := MakePackage(env, e, now), e.rng.base;
      && r.rng == e.rng.(base := Drawn(env, w, 3)) && r.spawned == e.spawned
      && r.world.packageCounter == e.world.packageCounter + 1
      && r.events == e.events + Appears(env, w, e.world.packageCounter + 1, 0, now)
  {
    ThreeMore(env, e.rng.base, 0);
    assert Drawn(env, e.rng.base, 0) == e.rng.base;
    hide Draw, PushTo, Drawn;
  }

  lemma {:induction false} DrawnTwice(env: Env, w: Word, m: nat, n: nat)
    ensures Drawn(env, Drawn(env, w, m), n) == Drawn(env, w, m + n)
    decreases n
  {
    if n == 0 {
    } else {
      DrawnTwice(env, w, m, n - 1);
      DrawnOneMore(env, Drawn(env, w, m), n - 1);
      DrawnOneMore(env, w, m + n - 1);
    }
  }

  lemma {:induction false} MakePackagesAre(env: Env, e: Effect, count: nat, now: int)
    requires env.Ok()
    ensures var r, w := MakePackages(env, e, count, now), e.rng.base;
      && r.rng == e.rng.(base := Drawn(env, w, 3 * count)) && r.spawned == e.spawned
      && r.world.packageCounter == e.world.packageCounter + count
      && r.events == e.events + AllAppear(env, w, e.world.packageCounter + 1, count, now)
  {
    hide MakePackage, Draw, Drawn;
    if count == 0 {
      assert e.events + [] == e.events;
      assert Drawn(env, e.rng.base, 0) == e.rng.base by { NothingDrawn(env, e.rng.base); }
    } else {
      var before, w, first := MakePackages(env, e, count - 1, now), e.rng.base, e.world.packageCounter + 1;
      MakePackagesAre(env, e, count - 1, now);
      MakePackageIs(env, before, now);
      DrawnTwice(env, w, 3 * (count - 1), 0);
      DrawnTwice(env, w, 3 * (count - 1), 1);
      DrawnTwice(env, w, 3 * (count - 1), 2);
      DrawnTwice(env, w, 3 * (count - 1), 3);
      assert Appears(env, Drawn(env, w, 3 * (count - 1)), first + (count - 1), 0, now) == Appears(env, w, first, count - 1, now);
      Associates(e.events, AllAppear(env, w, first, count - 1, now), Appears(env, w, first, count - 1, now));
    }
  }

  lemma NothingDrawn(env: Env, w: Word)
    ensures Drawn(env, w, 0) == w
  {
  }

  lemma Associates<T>(a: seq<T>, b: seq<T>, c: seq<T>)
    ensures a + b + c == a + (b + c)
  {
  }

  /** A tick at which batches rest: past the burst in its cycle of burst and quiet. */
  ghost predicate Resting(env: Env, tick: int) {
    env.sortWave.Some? && env.sortWave.value.burstWindowTicks <= InCycle(env.sortWave.value, tick)
  }

  /** How far into its cycle a tick is; without a cycle, at its start. */
  function InCycle(wave: SortWave, tick: int): int {
    if wave.burstWindowTicks + wave.quietWindowTicks > 0 then tick % (wave.burstWindowTicks + wave.quietWindowTicks) else 0
  }

  /** How many packages a batch has, and the word that decides about them. */
  function BatchDraw(env: Env, w: Word): (nat, Word)
    requires env.Ok()
  {
    if env.sortWave.Some? then (if env.sortWave.value.burstPackagesPerBatch > 0 then env.sortWave.value.burstPackagesPerBatch else 0, w)
    else (1 + Draw(env, w, 3 * env.fleetPerSpoke), Drawn(env, w, 1))
  }

  /** A batch brings as many packages as were drawn, outside the quiet window, and the next batch a quarter of an hour on. */
  lemma BatchIs(env: Env, rng: RngStates, w: World, tick: int, now: int)
    requires env.Ok()
    ensures var r := Fire(env, rng, w, CreatePackageBatch(tick), now);
      var (count, word) := BatchDraw(env, rng.base);
      && r.spawned == [Timed(tick + 15, CreatePackageBatch(tick + 15))]
      && r.events == (if Resting(env, tick) then [] else AllAppear(env, word, w.packageCounter + 1, count, now))
      && r.world.packageCounter == w.packageCounter + (if Resting(env, tick) then 0 else count)
      && r.rng.base == (if Resting(env, tick) then rng.base else Drawn(env, word, 3 * count))
  {
    hide MakePackages, AllAppear, Draw;
    var e := Effect(rng, w, [], []);
    DrawnOneMore(env, rng.base, 0);
    NothingDrawn(env, rng.base);
    hide Drawn;
    assert QuietWindow(env, tick) == Resting(env, tick);
    if !Resting(env, tick) {
      var (word, count) := BatchSize(env, rng.base);
      MakePackagesAre(env, e.(rng := rng.(base := word)), Hos.Max(0, count), now);
      assert [] + AllAppear(env, word, w.packageCounter + 1, Hos.Max(0, count), now) == AllAppear(env, word, w.packageCounter + 1, Hos.Max(0, count), now);
    }
  }

  lemma {:induction false} AppearEvents(env: Env, w: Word, first: nat, count: nat, at: int, i: nat)
    requires env.Ok() && i < |AllAppear(env, w, first, count, at)|
    ensures var e := AllAppear(env, w, first, count, at)[i];
      e.at == at && if e.event.PackageCreated?
                    then env.IsSpoke(e.event.dest) && e.event.sizeClass < 3 && 1 <= e.event.weight <= 50 && e.event.tagged == env.rfidOn
                    else e.event.PackageScanned?
  {
    var before := AllAppear(env, w, first, count - 1, at);
    if i < |before| { AppearEvents(env, w, first, count - 1, at, i); }
    hide Drawn;
  }

  // ----- On the quarter and the half hour --------------------------------------------------------------

  ghost predicate OnTheQuarter(env: Env, e: SimEvent) {
    && (e.event.PackageCreated? ==>
          && e.at % 15 == 0 && !Resting(env, e.at)
          && env.IsSpoke(e.event.dest) && e.event.sizeClass < 3 && 1 <= e.event.weight <= 50 && e.event.tagged == env.rfidOn)
    && (e.event.PackageInducted? ==> e.at % 30 == 1)
  }

  predicate TaskOnTheQuarter(task: SimTask) {
    && (task.CreatePackageBatch? ==> task.tick % 15 == 0)
    && (task.InductPackage? ==> task.tick % 30 == 1)
  }

  ghost predicate AllOnTheQuarter(env: Env, h: History) {
    && (forall x :: x in h.core.queue ==> TaskOnTheQuarter(x.task))
    && (forall i :: 0 <= i < |h.log| ==> OnTheQuarter(env, h.log[i]))
  }

  lemma InductionRecurs(env: Env, rng: RngStates, w: World, tick: int, now: int)
    requires env.Ok()
    ensures var r := Fire(env, rng, w, InductPackage(tick), now);
      && (r.spawned == [] || r.spawned == [Timed(tick + 30, InductPackage(tick + 30))])
      && forall i :: 0 <= i < |r.events| ==> r.events[i].at == now && !r.events[i].event.PackageCreated?
  {
    hide Draw, PushTo, SlaBuffer;
  }

  /** What a firing logs and schedules keeps to the quarter. */
  lemma FireOnTheQuarter(env: Env, rng: RngStates, w: World, task: SimTask, now: int)
    requires env.Ok() && OwnTick(task, now) && TaskOnTheQuarter(task)
    ensures var r := Fire(env, rng, w, task, now);
      && (forall i :: 0 <= i < |r.events| ==> OnTheQuarter(env, r.events[i]))
      && (forall i :: 0 <= i < |r.spawned| ==> TaskOnTheQuarter(r.spawned[i].task))
  {
    hide Fire, Resting;
    var r := Fire(env, rng, w, task, now);
    FireReschedules(env, rng, w, task, now);
    if task.CreatePackageBatch? {
      BatchIs(env, rng, w, task.tick, now);
      var (count, word) := BatchDraw(env, rng.base);
      forall i | 0 <= i < |r.events| ensures OnTheQuarter(env, r.events[i]) { AppearEvents(env, word, w.packageCounter + 1, count, now, i); }
    } else if task.InductPackage? {
      InductionRecurs(env, rng, w, task.tick, now);
    } else {
      forall i | 0 <= i < |r.events| ensures OnTheQuarter(env, r.events[i]) { FireLogs(env, rng, w, task, now, i); }
    }
  }

  lemma StepOnTheQuarter(env: Env, h: History)
    requires env.Ok() && h.core.queue != [] && Timely(h.core.queue) && AllOnTheQuarter(env, h)
    ensures AllOnTheQuarter(env, StepHistory(env, h))
  {
    hide Fire, ScheduleAll, OnTheQuarter, TaskOnTheQuarter;
    var head := h.core.queue[0];
    assert head in h.core.queue;
    var r := Fire(env, h.core.rng, h.core.world, head.task, head.fireTick);
    FireOnTheQuarter(env, h.core.rng, h.core.world, head.task, head.fireTick);
    forall x | x in StepHistory(env, h).core.queue ensures TaskOnTheQuarter(x.task) {
      ScheduleAllMembers(Queued(h.core.queue[1..], h.core.nextSeq), r.spawned, x);
      if x in h.core.queue[1..] { assert x in h.core.queue; }
    }
  }

  lemma BootstrapOnTheQuarter(env: Env, seed: Word)
    requires env.Ok()
    ensures AllOnTheQuarter(env, After(env, seed, 0))
  {
    InitialOnTheQuarter(env);
    NothingCreatedYet(env);
    hide BootstrapEvents, InitialSchedule, OnTheQuarter, TaskOnTheQuarter;
    var h := After(env, seed, 0);
    forall x | x in h.core.queue ensures TaskOnTheQuarter(x.task) { ScheduleAllMembers(Queued([], 0), InitialSchedule(env), x); }
    hide ScheduleAll;
  }

  lemma NothingCreatedYet(env: Env)
    ensures forall i :: 0 <= i < |BootstrapEvents(env)| ==> OnTheQuarter(env, BootstrapEvents(env)[i])
  {
  }

  lemma InitialOnTheQuarter(env: Env)
    requires env.Ok()
    ensures forall i :: 0 <= i < |InitialSchedule(env)| ==> TaskOnTheQuarter(InitialSchedule(env)[i].task)
  {
    RosterDeparturesTimely(env, env.TrailerCount());
    hide RosterDepartures;
  }

  /**
   * In every reachable log packages are created on the quarter of an hour and never in the quiet window, for
   * a spoke of the network, within the size classes and weights, tagged exactly when tags are read; and
   * packages are inducted a minute past the half hour.
   */
  lemma {:induction false} FreightKeepsTheQuarter(env: Env, seed: Word, n: nat)
    requires env.Ok()
    ensures AllOnTheQuarter(env, After(env, seed, n))
  {
    hide Bootstrap, StepHistory, AllOnTheQuarter, Books, Timeline, Journeys;
    if n == 0 {
      BootstrapOnTheQuarter(env, seed);
    } else {
      FreightKeepsTheQuarter(env, seed, n - 1);
      InvariantsHold(env, seed, n - 1);
      var h := After(env, seed, n - 1);
      if h.core.queue != [] { StepOnTheQuarter(env, h); }
    }
  }
}
