/**
 * Why continuation equivalence needs the fuel flag off, and exactly when a cut shows in the events
 * of a run with the flag on. The roster loop of a resume sets every odometer back to zero. A trailer
 * cut with miles on its odometer is then behind the same trailer of the uncut run by whole legs; the
 * two runs stay in step until one of them refuels at a departure where the other does not, and from
 * there on the uncut run shows a refuelling of that trip which the chunked one never shows.
 */
module SimFuel {
  import opened Generators
  import opened SimTypes
  import opened EventQueues
  import opened Simulation
  import opened SimRuns
  import opened SimFreight
  import opened SimBooks
  import opened SimChunks
  import opened SimTimeline
  import opened SimMiles

  /** Leg distances are distances. */
  ghost predicate Distances(env: Env) { forall spoke :: Leg(env, spoke) >= 0.0 }

  /** Each trailer of the roster serves one spoke. */
  function Home(env: Env, t: TrailerId): Hub
    requires env.Ok() && IsId(t, env.TrailerCount())
  {
    Spoke((t - 1) % env.spokeCount)
  }

  function HomeLeg(env: Env, t: TrailerId): real
    requires env.Ok() && IsId(t, env.TrailerCount())
  {
    Leg(env, Home(env, t))
  }

  // ----- What every run keeps ------------------------------------------------------------------

  predicate OnRoster(env: Env, task: SimTask)
    requires env.Ok()
  {
    match task
    case DepartTrailer(t, spoke, _) => IsId(t, env.TrailerCount()) && spoke == Home(env, t)
    case ArriveTrailer(t, spoke, _, _, _) => IsId(t, env.TrailerCount()) && spoke == Home(env, t)
    case _ => true
  }

  predicate OldTrip(w: World, task: SimTask) { task.MidLegStops? ==> task.trip <= w.tripCounter }

  ghost predicate Metered(env: Env, o: Odometers)
    requires env.Ok()
  {
    forall t: nat :: IsId(t, env.TrailerCount()) ==>
      t in o && (o[t] == 0.0 || (0.0 < HomeLeg(env, t) <= o[t] < env.fuelConfig.refuelThresholdMiles))
  }

  ghost predicate QueueRolls(env: Env, queue: seq<Scheduled>, w: World)
    requires env.Ok()
  {
    forall x :: x in queue ==> OnRoster(env, x.task) && OldTrip(w, x.task)
  }

  ghost predicate Rolling(env: Env, core: Core)
    requires env.Ok()
  {
    Settled(env, core) && QueueRolls(env, core.queue, core.world) && Metered(env, core.world.odometer)
  }

  lemma FireMiles(env: Env, rng: RngStates, w: World, task: SimTask, now: int)
    requires env.Ok() && env.fuelOn
    ensures Fire(env, rng, w, task, now).world.odometer
            == if task.DepartTrailer?
               then w.odometer[task.trailer := NextMiles(env, Miles(w.odometer, task.trailer), Leg(env, task.spoke))]
               else w.odometer
  {
    if task.DepartTrailer? {
      hide Launch, Underway, NextMiles;
      var e := Effect(rng, w, [], []);
      LaunchKeepsMiles(env, e, task.trailer, task.spoke, now);
      var (a, transit) := Launch(env, e, task.trailer, task.spoke, now);
      UnderwayMiles(env, a, task.trailer, task.spoke, w.tripCounter + 1, Manifest(w.pendingBySpoke, task.spoke), transit, task.departTick, now);
    } else {
      hide Fire;
      FireBlind(env, rng, w, task, now, w.odometer);
    }
  }

  /** Only a departure schedules stops: those of its own trip, with a refuelling if the miles call for one. */
  lemma FireStops(env: Env, rng: RngStates, w: World, task: SimTask, now: int)
    requires env.Ok() && env.fuelOn && OwnTick(task, now)
    ensures forall i :: 0 <= i < |Fire(env, rng, w, task, now).spawned| && Fire(env, rng, w, task, now).spawned[i].task.MidLegStops? ==>
              var stops := Fire(env, rng, w, task, now).spawned[i].task;
              && task.DepartTrailer? && stops.trip == w.tripCounter + 1
              && stops.didRefuel == Refuels(env, Miles(w.odometer, task.trailer), Leg(env, task.spoke))
    ensures task.DepartTrailer? && Refuels(env, Miles(w.odometer, task.trailer), Leg(env, task.spoke)) ==>
              exists x :: x in Fire(env, rng, w, task, now).spawned && now <= x.fireTick && x.task.MidLegStops?
                          && x.task.trip == w.tripCounter + 1 && x.task.didRefuel
  {
    hide Launch, Underway, Refuels;
    FireReschedules(env, rng, w, task, now);
    if task.DepartTrailer? {
      var e := Effect(rng, w, [], []);
      LaunchKeepsMiles(env, e, task.trailer, task.spoke, now);
      LaunchSpawnsNothing(env, e, task.trailer, task.spoke, now);
      var (a, transit) := Launch(env, e, task.trailer, task.spoke, now);
      UnderwayStops(env, a, task.trailer, task.spoke, w.tripCounter + 1, Manifest(w.pendingBySpoke, task.spoke), transit, task.departTick, now);
    } else {
      hide Fire;
    }
  }

  lemma RollCountsTrip(env: Env, e: Effect, t: TrailerId, spoke: Hub, now: int)
    ensures Roll(env, e, t, spoke, now).0.world.tripCounter == e.world.tripCounter + 1
  {
    hide Manifest, LoadScans, PhaseEvents, DrawTransit;
  }

  lemma DepartCountsTrip(env: Env, e: Effect, t: TrailerId, spoke: Hub, departTick: int, now: int)
    requires env.Ok()
    ensures Depart(env, e, t, spoke, departTick, now).world.tripCounter >= e.world.tripCounter + 1
  {
    hide Roll, Dispatch, RfidEffect, DriveOut, Underway, Manifest;
    RollCountsTrip(env, e, t, spoke, now);
    var (rolled, transit) := Roll(env, e, t, spoke, now);
    var trip, loaded := e.world.tripCounter + 1, Manifest(e.world.pendingBySpoke, spoke);
    DispatchKeepsShape(env, rolled, t, trip, transit, now);
    var dispatched := Dispatch(env, rolled, t, trip, transit, now);
    RfidKeepsShape(env, dispatched, Portal, t, Center, loaded, now);
    var read := RfidEffect(env, dispatched, Portal, t, Center, loaded, now);
    DriveOutKeepsShape(env, read, t, transit, now);
    UnderwayKeepsShape(env, DriveOut(env, read, t, transit, now), t, spoke, trip, loaded, transit, departTick, now);
  }

  lemma FireCountsTrips(env: Env, rng: RngStates, w: World, task: SimTask, now: int)
    requires env.Ok()
    ensures Fire(env, rng, w, task, now).world.tripCounter >= w.tripCounter + if task.DepartTrailer? then 1 else 0
  {
    if task.DepartTrailer? {
      hide Depart;
      DepartCountsTrip(env, Effect(rng, w, [], []), task.trailer, task.spoke, task.departTick, now);
    } else {
      hide Fire;
      FireKeepsShape(env, rng, w, task, now);
    }
  }

  lemma NextMetered(env: Env, o: Odometers, t: TrailerId)
    requires env.Ok() && Distances(env) && Metered(env, o) && IsId(t, env.TrailerCount())
    ensures Metered(env, o[t := NextMiles(env, Miles(o, t), HomeLeg(env, t))])
  {
    hide Home;
    assert Leg(env, Home(env, t)) >= 0.0;
  }

  lemma StepRolls(env: Env, core: Core)
    requires env.Ok() && env.fuelOn && Distances(env) && Rolling(env, core) && core.queue != []
    ensures Rolling(env, Step(env, core).core)
  {
    StepSettled(env, core);
    var head := core.queue[0];
    assert head in core.queue;
    FireMiles(env, core.rng, core.world, head.task, head.fireTick);
    if head.task.DepartTrailer? { NextMetered(env, core.world.odometer, head.task.trailer); }
    StepQueueRolls(env, core);
    hide Fire, Settled, QueueRolls, Metered, NextMiles, ScheduleAll;
  }

  lemma StepQueueRolls(env: Env, core: Core)
    requires env.Ok() && env.fuelOn && core.queue != [] && Timely(core.queue) && QueueRolls(env, core.queue, core.world)
    ensures var next := Step(env, core).core; QueueRolls(env, next.queue, next.world)
  {
    hide Fire, ScheduleAll, Refuels;
    var head := core.queue[0];
    assert head in core.queue;
    var e := Fire(env, core.rng, core.world, head.task, head.fireTick);
    FireStops(env, core.rng, core.world, head.task, head.fireTick);
    FireCountsTrips(env, core.rng, core.world, head.task, head.fireTick);
    FireReschedules(env, core.rng, core.world, head.task, head.fireTick);
    forall x | x in Step(env, core).core.queue ensures OnRoster(env, x.task) && OldTrip(e.world, x.task) {
      ScheduleAllMembers(Queued(core.queue[1..], core.nextSeq), e.spawned, x);
      if x in core.queue[1..] { assert x in core.queue; }
    }
  }

  lemma {:induction false} DrainRolls(env: Env, core: Core, horizon: int)
    requires env.Ok() && env.fuelOn && Distances(env) && Rolling(env, core)
    ensures Rolling(env, Drain(env, core, horizon).core)
    decreases QueueTicksLeft(core.queue, horizon), |core.queue|
  {
    if core.queue != [] && core.queue[0].fireTick <= horizon {
      StepTerminates(env, core, horizon);
      StepRolls(env, core);
      hide Rolling, Step;
      DrainRolls(env, Step(env, core).core, horizon);
    }
  }

  lemma InitialOnRoster(env: Env, x: Timed)
    requires env.Ok() && x in InitialSchedule(env)
    ensures OnRoster(env, x.task) && !x.task.MidLegStops? && !x.task.ArriveTrailer?
    ensures x.task.DepartTrailer? ==> exists k: nat :: k < env.TrailerCount() && x == RosterDeparture(env, k)
  {
    RosterDeparturesTimely(env, env.TrailerCount());
    hide RosterDepartures;
    var i :| 0 <= i < |InitialSchedule(env)| && InitialSchedule(env)[i] == x;
    if x.task.DepartTrailer? { assert x == RosterDeparture(env, i - 1); }
  }

  lemma BootstrapRolls(env: Env, seed: Word)
    requires env.Ok() && env.fuelOn
    ensures Rolling(env, Bootstrap(env, seed).core)
  {
    BootstrapSettled(env, seed);
    FreshIsMetered(env);
    hide InitialSchedule, ScheduleAll, FreshRng, BootstrapEvents, Settled, FreshWorld, Metered, OnRoster;
    var core := Bootstrap(env, seed).core;
    forall x | x in core.queue ensures OnRoster(env, x.task) && OldTrip(core.world, x.task) {
      ScheduleAllMembers(Queued([], 0), InitialSchedule(env), x);
      InitialOnRoster(env, Timed(x.fireTick, x.task));
    }
  }

  lemma FreshIsMetered(env: Env)
    requires env.Ok() && env.fuelOn
    ensures Metered(env, FreshWorld(env).odometer)
  {
  }

  // ----- Two runs in step -----------------------------------------------------------------------

  predicate Twin(c: Core, d: Core) { d == c.(world := Reading(c.world, d.world.odometer)) }

  /** Trailer by trailer the second run reads the same, or is at least a leg behind. */
  ghost predicate Lead(env: Env, o: Odometers, p: Odometers)
    requires env.Ok()
  {
    forall t: nat :: IsId(t, env.TrailerCount()) ==>
      var x, y := Miles(o, t), Miles(p, t);
      x == y || (0.0 < HomeLeg(env, t) && y + HomeLeg(env, t) <= x < env.fuelConfig.refuelThresholdMiles)
  }

  /** The next firing is a departure that refuels in the first run only. */
  predicate Parts(env: Env, c: Core, d: Core) {
    && c.queue != [] && c.queue[0].task.DepartTrailer?
    && var t := c.queue[0].task.trailer;
       Miles(c.world.odometer, t) != Miles(d.world.odometer, t)
       && Refuels(env, Miles(c.world.odometer, t), Leg(env, c.queue[0].task.spoke))
  }

  /** The second run's odometers after a task. */
  function NextReading(env: Env, task: SimTask, o: Odometers): Odometers {
    if task.DepartTrailer? then o[task.trailer := NextMiles(env, Miles(o, task.trailer), Leg(env, task.spoke))] else o
  }

  /** Either run refuels with the same miles, or neither does. */
  predicate DecidesAlike(env: Env, task: SimTask, o: Odometers, p: Odometers) {
    task.DepartTrailer? ==>
      && var x, y, m := Miles(o, task.trailer), Miles(p, task.trailer), Leg(env, task.spoke);
         Refuels(env, x, m) == Refuels(env, y, m) && (Refuels(env, x, m) ==> x == y)
  }

  lemma DepartAlike(env: Env, e: Effect, task: SimTask, now: int, o: Odometers)
    requires env.Ok() && env.fuelOn && task.DepartTrailer? && DecidesAlike(env, task, e.world.odometer, o)
    ensures Depart(env, WithMiles(e, o), task.trailer, task.spoke, task.departTick, now)
            == WithMiles(Depart(env, e, task.trailer, task.spoke, task.departTick, now), NextReading(env, task, o))
  {
    hide Launch, Underway, NextMiles, Refuels, Miles, Manifest;
    LaunchKeepsMiles(env, e, task.trailer, task.spoke, now);
    LaunchBlind(env, e, task.trailer, task.spoke, now, o);
    var (a, transit) := Launch(env, e, task.trailer, task.spoke, now);
    UnderwayAlike(env, a, task.trailer, task.spoke, e.world.tripCounter + 1, Manifest(e.world.pendingBySpoke, task.spoke),
                  transit, task.departTick, now, o);
  }

  lemma FireAlike(env: Env, rng: RngStates, w: World, task: SimTask, now: int, o: Odometers)
    requires env.Ok() && env.fuelOn && DecidesAlike(env, task, w.odometer, o)
    ensures Fire(env, rng, Reading(w, o), task, now) == WithMiles(Fire(env, rng, w, task, now), NextReading(env, task, o))
  {
    if task.DepartTrailer? {
      hide Depart, DecidesAlike, NextReading;
      DepartAlike(env, Effect(rng, w, [], []), task, now, o);
    } else {
      hide Fire;
      FireBlind(env, rng, w, task, now, o);
    }
  }

  lemma NextLead(env: Env, o: Odometers, p: Odometers, t: TrailerId)
    requires env.Ok() && Lead(env, o, p) && IsId(t, env.TrailerCount())
    requires Miles(o, t) == Miles(p, t) || !Refuels(env, Miles(o, t), HomeLeg(env, t))
    ensures var m := HomeLeg(env, t);
            Lead(env, o[t := NextMiles(env, Miles(o, t), m)], p[t := NextMiles(env, Miles(p, t), m)])
  {
    hide Home;
    assert IsId(t, env.TrailerCount());
  }

  /** A task that does not part the runs leaves one leading the other as before. */
  lemma TaskKeepsLead(env: Env, task: SimTask, o: Odometers, p: Odometers)
    requires env.Ok() && OnRoster(env, task) && Lead(env, o, p)
    requires task.DepartTrailer? ==>
      Miles(o, task.trailer) == Miles(p, task.trailer) || !Refuels(env, Miles(o, task.trailer), Leg(env, task.spoke))
    ensures DecidesAlike(env, task, o, p) && Lead(env, NextReading(env, task, o), NextReading(env, task, p))
  {
    if task.DepartTrailer? {
      NextLead(env, o, p, task.trailer);
      assert IsId(task.trailer, env.TrailerCount());
    }
  }

  /** Until they part the two runs emit the same and stay in step. */
  lemma StepAlike(env: Env, c: Core, d: Core)
    requires env.Ok() && env.fuelOn && Rolling(env, c) && Twin(c, d) && Lead(env, c.world.odometer, d.world.odometer)
    requires c.queue != [] && !Parts(env, c, d)
    ensures var c', d' := Step(env, c), Step(env, d);
            c'.events == d'.events && Twin(c'.core, d'.core) && Lead(env, c'.core.world.odometer, d'.core.world.odometer)
    ensures Step(env, c).core.world.odometer == NextReading(env, c.queue[0].task, c.world.odometer)
    ensures Step(env, d).core.world.odometer == NextReading(env, c.queue[0].task, d.world.odometer)
  {
    var head, o := c.queue[0], d.world.odometer;
    assert head in c.queue && OnRoster(env, head.task);
    FireMiles(env, c.rng, c.world, head.task, head.fireTick);
    hide Fire, Settled, Metered, QueueRolls, OnRoster, ScheduleAll, Lead, Refuels, NextMiles;
    TaskKeepsLead(env, head.task, c.world.odometer, o);
    FireAlike(env, c.rng, c.world, head.task, head.fireTick, o);
  }

  // ----- Where they part -----------------------------------------------------------------------------

  predicate ShowsRefuelling(events: seq<SimEvent>, trip: TripId) {
    exists x :: x in events && x.event.TruckRefueled? && x.event.trip == trip
  }

  /** Nothing queued refuels on this trip, and no later departure is given its number. */
  ghost predicate NeverRefuels(core: Core, trip: TripId) {
    && trip <= core.world.tripCounter
    && forall x :: x in core.queue && x.task.MidLegStops? && x.task.trip == trip ==> !x.task.didRefuel
  }

  lemma StepNeverRefuels(env: Env, core: Core, trip: TripId)
    requires env.Ok() && env.fuelOn && Timely(core.queue) && core.queue != [] && NeverRefuels(core, trip)
    ensures NeverRefuels(Step(env, core).core, trip) && !ShowsRefuelling(Step(env, core).events, trip)
  {
    hide Fire, ScheduleAll, Refuels;
    var head := core.queue[0];
    assert head in core.queue;
    var e := Fire(env, core.rng, core.world, head.task, head.fireTick);
    FireStops(env, core.rng, core.world, head.task, head.fireTick);
    FireCountsTrips(env, core.rng, core.world, head.task, head.fireTick);
    FireStamped(env, core.rng, core.world, head.task, head.fireTick);
    forall x | x in Step(env, core).core.queue && x.task.MidLegStops? && x.task.trip == trip ensures !x.task.didRefuel {
      ScheduleAllMembers(Queued(core.queue[1..], core.nextSeq), e.spawned, x);
      if x in core.queue[1..] { assert x in core.queue; }
    }
  }

  lemma {:induction false} DrainNeverRefuels(env: Env, core: Core, trip: TripId, horizon: int)
    requires env.Ok() && env.fuelOn && Timely(core.queue) && NeverRefuels(core, trip)
    ensures !ShowsRefuelling(Drain(env, core, horizon).events, trip)
    decreases QueueTicksLeft(core.queue, horizon), |core.queue|
  {
    if core.queue != [] && core.queue[0].fireTick <= horizon {
      StepTerminates(env, core, horizon);
      StepNeverRefuels(env, core, trip);
      hide Step, NeverRefuels;
      DrainNeverRefuels(env, Step(env, core).core, trip, horizon);
    }
  }

  /** What is queued and due is fired, if it is not fired first. */
  lemma StaysQueued(env: Env, core: Core, x: Scheduled)
    requires env.Ok() && core.queue != [] && x in core.queue && x != core.queue[0]
    ensures x in Step(env, core).core.queue
  {
    hide Fire;
    assert x in core.queue[1..];
    ScheduledStays(Queued(core.queue[1..], core.nextSeq), Fire(env, core.rng, core.world, core.queue[0].task, core.queue[0].fireTick).spawned, x);
  }

  lemma {:induction false} ScheduledStays(q: Queued, spawned: seq<Timed>, x: Scheduled)
    requires x in q.queue
    ensures x in ScheduleAll(q, spawned).queue
  {
    if spawned != [] {
      var init, last := spawned[..|spawned| - 1], spawned[|spawned| - 1];
      ScheduledStays(q, init, x);
      var before := ScheduleAll(q, init);
      InsertMembers(before.queue, Scheduled(last.fireTick, before.nextSeq, last.task));
    }
  }

  lemma {:induction false} SpawnedIsQueued(q: Queued, spawned: seq<Timed>, x: Timed) returns (y: Scheduled)
    requires x in spawned
    ensures y in ScheduleAll(q, spawned).queue && y.fireTick == x.fireTick && y.task == x.task
  {
    var init, last := spawned[..|spawned| - 1], spawned[|spawned| - 1];
    var before := ScheduleAll(q, init);
    var added := Scheduled(last.fireTick, before.nextSeq, last.task);
    InsertMembers(before.queue, added);
    if x == last {
      y := added;
    } else {
      y := SpawnedIsQueued(q, init, x);
    }
  }

  lemma DueFirst(env: Env, core: Core, x: Scheduled)
    requires Settled(env, core) && x in core.queue
    ensures core.queue[0].fireTick <= x.fireTick
  {
  }

  /** Stops with a refuelling that are queued show it once the run has come to their tick. */
  lemma {:induction false} QueuedRefuellingShows(env: Env, core: Core, x: Scheduled)
    requires env.Ok() && Settled(env, core) && x in core.queue && x.task.MidLegStops? && x.task.didRefuel
    ensures ShowsRefuelling(Drain(env, core, x.fireTick).events, x.task.trip)
    decreases QueueTicksLeft(core.queue, x.fireTick), |core.queue|
  {
    DueFirst(env, core, x);
    StepTerminates(env, core, x.fireTick);
    StepSettled(env, core);
    var ran := Step(env, core);
    var rest := Drain(env, ran.core, x.fireTick).events;
    assert Drain(env, core, x.fireTick).events == ran.events + rest;
    if x == core.queue[0] {
      var shown := RefuelEvent(env, x.task.trailer, x.task.trip, x.task.refuelOdometer, x.fireTick);
      assert ran.events[|ran.events| - 1] == shown;
      assert shown in ran.events + rest && shown.event.TruckRefueled? && shown.event.trip == x.task.trip;
    } else {
      StaysQueued(env, core, x);
      hide Step, Settled;
      QueuedRefuellingShows(env, ran.core, x);
      var shown :| shown in rest && shown.event.TruckRefueled? && shown.event.trip == x.task.trip;
      assert shown in ran.events + rest;
    }
  }

  lemma DrainFromHere(env: Env, core: Core, horizon: int)
    requires env.Ok() && Timely(core.queue) && core.queue != [] && core.queue[0].fireTick <= horizon
    ensures Timely(Step(env, core).core.queue)
    ensures Drain(env, core, horizon).events == Step(env, core).events + Drain(env, Step(env, core).core, horizon).events
  {
    hide Step;
    StepTerminates(env, core, horizon);
  }

  /** The departure of the first run that refuels: its refuelling shows there and never in the other. */
  lemma PartingShows(env: Env, c: Core, d: Core) returns (h: int)
    requires env.Ok() && env.fuelOn && Rolling(env, c) && Twin(c, d) && Lead(env, c.world.odometer, d.world.odometer) && Parts(env, c, d)
    ensures Timely(c.queue) && Timely(d.queue) && c.queue[0].fireTick <= h
    ensures Drain(env, c, h).events != Drain(env, d, h).events
  {
    var head, trip := c.queue[0], c.world.tripCounter + 1;
    assert head in c.queue;
    var e := Fire(env, c.rng, c.world, head.task, head.fireTick);
    FireStops(env, c.rng, c.world, head.task, head.fireTick);
    var x :| x in e.spawned && head.fireTick <= x.fireTick && x.task.MidLegStops? && x.task.trip == trip && x.task.didRefuel;
    var y := SpawnedIsQueued(Queued(c.queue[1..], c.nextSeq), e.spawned, x);
    h := x.fireTick;
    StepSettled(env, c);
    QueuedRefuellingShows(env, Step(env, c).core, y);
    OtherNeverRefuels(env, c, d);
    FireStamped(env, d.rng, d.world, head.task, head.fireTick);
    DrainNeverRefuels(env, Step(env, d).core, trip, h);
    hide Fire, Settled, Lead, Metered, Refuels, ScheduleAll;
    DrainFromHere(env, c, h);
    DrainFromHere(env, d, h);
    ShownSomewhere(Step(env, c).events, Drain(env, Step(env, c).core, h).events, trip);
    ShownSomewhere(Step(env, d).events, Drain(env, Step(env, d).core, h).events, trip);
  }

  lemma ShownSomewhere(a: seq<SimEvent>, b: seq<SimEvent>, trip: TripId)
    ensures ShowsRefuelling(a + b, trip) <==> ShowsRefuelling(a, trip) || ShowsRefuelling(b, trip)
  {
    assert forall x :: x in a + b <==> x in a || x in b;
  }

  /** Where the first run refuels ahead of the second, the second does not. */
  lemma SecondGoesOn(env: Env, o: Odometers, p: Odometers, t: TrailerId)
    requires env.Ok() && IsId(t, env.TrailerCount()) && Lead(env, o, p) && Miles(o, t) != Miles(p, t)
    ensures !Refuels(env, Miles(p, t), HomeLeg(env, t))
  {
    hide Home;
  }

  lemma OtherNeverRefuels(env: Env, c: Core, d: Core)
    requires env.Ok() && env.fuelOn && Rolling(env, c) && Twin(c, d) && Lead(env, c.world.odometer, d.world.odometer) && Parts(env, c, d)
    ensures Timely(Step(env, d).core.queue) && NeverRefuels(Step(env, d).core, c.world.tripCounter + 1)
  {
    var head := c.queue[0];
    assert head in c.queue && OnRoster(env, head.task);
    SecondGoesOn(env, c.world.odometer, d.world.odometer, head.task.trailer);
    SameQueueRolls(env, c, d);
    hide *;
    StepTerminates(env, d, head.fireTick);
    DepartsUnfuelled(env, d);
  }

  lemma SameQueueRolls(env: Env, c: Core, d: Core)
    requires env.Ok() && Rolling(env, c) && Twin(c, d)
    ensures Timely(d.queue) && QueueRolls(env, d.queue, d.world) && d.queue == c.queue && d.world.tripCounter == c.world.tripCounter
  {
    hide Sorted, Numbered, HasSpokes, Metered;
  }

  /** After a departure without a refuelling nothing of its trip refuels. */
  lemma DepartsUnfuelled(env: Env, core: Core)
    requires env.Ok() && env.fuelOn && core.queue != [] && Timely(core.queue) && QueueRolls(env, core.queue, core.world)
    requires core.queue[0].task.DepartTrailer?
    requires var task := core.queue[0].task; !Refuels(env, Miles(core.world.odometer, task.trailer), Leg(env, task.spoke))
    ensures NeverRefuels(Step(env, core).core, core.world.tripCounter + 1)
  {
    hide Fire, ScheduleAll, Refuels, OnRoster;
    var head, trip := core.queue[0], core.world.tripCounter + 1;
    assert head in core.queue;
    var e := Fire(env, core.rng, core.world, head.task, head.fireTick);
    FireStops(env, core.rng, core.world, head.task, head.fireTick);
    FireCountsTrips(env, core.rng, core.world, head.task, head.fireTick);
    forall x | x in Step(env, core).core.queue && x.task.MidLegStops? && x.task.trip == trip ensures !x.task.didRefuel {
      ScheduleAllMembers(Queued(core.queue[1..], core.nextSeq), e.spawned, x);
      if x in core.queue[1..] { assert x in core.queue; }
    }
  }

  // ----- That they part ---------------------------------------------------------------------------------

  predicate TripOf(task: SimTask, t: TrailerId) { Recurring(task) && ActivityOf(task) == Trips(t) }

  /** The trip that just fired goes on with the next half of its round. */
  lemma TripGoesOn(env: Env, core: Core) returns (next: Scheduled)
    requires env.Ok() && Timely(core.queue) && core.queue != []
    requires core.queue[0].task.DepartTrailer? || core.queue[0].task.ArriveTrailer?
    ensures next in Step(env, core).core.queue && TripOf(next.task, core.queue[0].task.trailer)
    ensures next.task.ArriveTrailer? <==> core.queue[0].task.DepartTrailer?
    ensures core.queue[0].fireTick < next.fireTick
  {
    hide Fire;
    var head := core.queue[0];
    assert head in core.queue;
    FireReschedules(env, core.rng, core.world, head.task, head.fireTick);
    var spawned := Fire(env, core.rng, core.world, head.task, head.fireTick).spawned;
    next := SpawnedIsQueued(Queued(core.queue[1..], core.nextSeq), spawned, spawned[|spawned| - 1]);
  }

  lemma NothingIsPast(env: Env, core: Core)
    requires env.Ok() && Rolling(env, core) && core.queue != []
    ensures forall x :: x in Step(env, core).core.queue ==> core.queue[0].fireTick <= x.fireTick
  {
    hide Fire, ScheduleAll, QueueRolls, Metered;
    var head := core.queue[0];
    assert head in core.queue;
    var e := Fire(env, core.rng, core.world, head.task, head.fireTick);
    FireReschedules(env, core.rng, core.world, head.task, head.fireTick);
    forall x | x in Step(env, core).core.queue ensures head.fireTick <= x.fireTick {
      ScheduleAllMembers(Queued(core.queue[1..], core.nextSeq), e.spawned, x);
    }
  }

  lemma NotParting(env: Env, c: Core, d: Core)
    requires c.queue != [] && !Parts(env, c, d)
    ensures var task := c.queue[0].task;
            task.DepartTrailer? ==>
              || Miles(c.world.odometer, task.trailer) == Miles(d.world.odometer, task.trailer)
              || !Refuels(env, Miles(c.world.odometer, task.trailer), Leg(env, task.spoke))
  {
  }

  /** What is at hand while one task is queued in both runs. */
  lemma Ready(env: Env, c: Core, d: Core, item: Scheduled)
    requires env.Ok() && Rolling(env, c) && Twin(c, d) && item in c.queue
    ensures Timely(c.queue) && d.queue == c.queue && c.queue != []
    ensures c.queue[0] in c.queue && OnRoster(env, c.queue[0].task) && c.queue[0].fireTick <= item.fireTick
  {
    DueFirst(env, c, item);
  }

  /** One departure of a trailer that is ahead, short of refuelling. */
  lemma LegNearer(env: Env, x: real, y: real, m: real, k: nat)
    requires x != y && !Refuels(env, x, m) && x + k as real * m >= env.fuelConfig.refuelThresholdMiles && m > 0.0
    requires y + m <= x
    ensures k > 0 && NextMiles(env, x, m) + (k - 1) as real * m >= env.fuelConfig.refuelThresholdMiles
    ensures NextMiles(env, x, m) != NextMiles(env, y, m)
  {
    assert k == 0 ==> k as real * m == 0.0;
    assert (k - 1) as real * m + m == k as real * m by { assert (k - 1) as real + 1.0 == k as real; }
  }

  /** The trailer reads differently in the two runs, and at most `k` legs are missing to a refuelling in the first. */
  predicate Behind(env: Env, o: Odometers, p: Odometers, t: TrailerId, k: nat)
    requires env.Ok() && IsId(t, env.TrailerCount())
  {
    && Miles(o, t) != Miles(p, t)
    && Miles(o, t) + k as real * HomeLeg(env, t) >= env.fuelConfig.refuelThresholdMiles
  }

  /** A task that does not part the runs brings its own trailer a leg nearer, and no other. */
  lemma BehindNext(env: Env, task: SimTask, o: Odometers, p: Odometers, t: TrailerId, k: nat) returns (left: nat)
    requires env.Ok() && OnRoster(env, task) && Lead(env, o, p) && IsId(t, env.TrailerCount()) && Behind(env, o, p, t, k)
    requires task.DepartTrailer? ==>
      Miles(o, task.trailer) == Miles(p, task.trailer) || !Refuels(env, Miles(o, task.trailer), Leg(env, task.spoke))
    ensures Behind(env, NextReading(env, task, o), NextReading(env, task, p), t, left)
    ensures if task.DepartTrailer? && task.trailer == t then left < k else left == k
  {
    left := k;
    if task.DepartTrailer? && task.trailer == t {
      var x, y, m := Miles(o, t), Miles(p, t), HomeLeg(env, t);
      assert 0.0 < m && y + m <= x;
      hide Home, Lead;
      LegNearer(env, x, y, m, k);
      left := k - 1;
    }
  }

  /** The queued task after one firing: the same, or the next half of its round when it was this one. */
  lemma ItemNext(env: Env, core: Core, t: TrailerId, item: Scheduled) returns (next: Scheduled)
    requires env.Ok() && Timely(core.queue) && item in core.queue && TripOf(item.task, t)
    ensures next in Step(env, core).core.queue && TripOf(next.task, t)
    ensures next == item || (item == core.queue[0] && (next.task.ArriveTrailer? <==> item.task.DepartTrailer?))
    ensures (item.task.DepartTrailer? || item.task.ArriveTrailer?) && item.task.trailer == t
  {
    hide Step;
    next := item;
    if item == core.queue[0] { next := TripGoesOn(env, core); } else { StaysQueued(env, core, item); }
  }

  /**
   * A trailer ahead in the first run is at most `k` legs from refuelling, and one of its tasks is
   * queued: the runs part, at the latest when it gets there.
   */
  lemma {:induction false} Chase(env: Env, c: Core, d: Core, t: TrailerId, item: Scheduled, k: nat) returns (h: int)
    requires env.Ok() && env.fuelOn && Distances(env) && Rolling(env, c) && Twin(c, d) && Lead(env, c.world.odometer, d.world.odometer)
    requires item in c.queue && TripOf(item.task, t) && IsId(t, env.TrailerCount())
    requires Behind(env, c.world.odometer, d.world.odometer, t, k)
    ensures Timely(c.queue) && Timely(d.queue) && c.queue[0].fireTick <= h
    ensures Drain(env, c, h).events != Drain(env, d, h).events
    decreases k, if item.task.ArriveTrailer? then 1 else 0, QueueTicksLeft(c.queue, item.fireTick), |c.queue|
  {
    hide *;
    Ready(env, c, d, item);
    if Parts(env, c, d) {
      h := PartingShows(env, c, d);
    } else {
      StepAlike(env, c, d);
      StepRolls(env, c);
      StepTerminates(env, c, item.fireTick);
      NotParting(env, c, d);
      var left := BehindNext(env, c.queue[0].task, c.world.odometer, d.world.odometer, t, k);
      var next := ItemNext(env, c, t, item);
      h := Chase(env, Step(env, c).core, Step(env, d).core, t, next, left);
      Ready(env, Step(env, c).core, Step(env, d).core, next);
      NothingIsPast(env, c);
      DrainFromHere(env, c, h);
      DrainFromHere(env, d, h);
      SameFront(Step(env, c).events, Drain(env, Step(env, c).core, h).events, Drain(env, Step(env, d).core, h).events);
    }
  }

  lemma SameFront(front: seq<SimEvent>, a: seq<SimEvent>, b: seq<SimEvent>)
    ensures front + a == front + b ==> a == b
  {
    assert (front + a)[|front|..] == a && (front + b)[|front|..] == b;
  }

  // ----- The cut --------------------------------------------------------------------------------------

  lemma EnoughLegs(x: real, m: real, range: real) returns (k: nat)
    requires 0.0 < m
    ensures x + k as real * m >= range
  {
    if x >= range {
      k := 0;
      assert 0 as real * m == 0.0;
    } else {
      var legs := (range - x) / m;
      assert legs * m == range - x && legs >= 0.0;
      k := legs.Floor + 1;
      assert k as real >= legs;
      TimesAtLeast(k as real, legs, m);
    }
  }

  lemma TimesAtLeast(a: real, b: real, m: real)
    requires a >= b && m > 0.0
    ensures a * m >= b * m
  {
    assert (a - b) * m >= 0.0;
  }

  /** At the cut the resumed run reads zero everywhere, which is at least a leg behind or equal. */
  lemma ResetIsBehind(env: Env, o: Odometers)
    requires env.Ok() && env.fuelOn && Metered(env, o)
    ensures Lead(env, o, RosterOdometers(env, o))
    ensures forall t: nat :: IsId(t, env.TrailerCount()) ==> Miles(RosterOdometers(env, o), t) == 0.0
  {
    hide Home;
    var p := RosterOdometers(env, o);
    forall t: nat | IsId(t, env.TrailerCount()) ensures t in p && p[t] == 0.0 { }
  }

  /** A trailer with miles on its odometer at the cut, and how many legs it may be from a refuelling. */
  lemma SomeoneIsBehind(env: Env, w: World) returns (t: TrailerId, k: nat)
    requires env.Ok() && env.fuelOn && Metered(env, w.odometer) && !OdometersAtZero(env, w)
    ensures IsId(t, env.TrailerCount()) && Behind(env, w.odometer, RosterOdometers(env, w.odometer), t, k)
  {
    hide Home, Lead;
    var u: nat :| u <= env.TrailerCount() && IsId(u, env.TrailerCount()) && !(u in w.odometer && w.odometer[u] == 0.0);
    t := u;
    ResetIsBehind(env, w.odometer);
    k := EnoughLegs(Miles(w.odometer, t), HomeLeg(env, t), env.fuelConfig.refuelThresholdMiles);
    hide RosterOdometers;
  }

  /** The state at the cut, and the state the resumed run starts from. */
  function AtCut(env: Env, seed: Word, h1: nat): Core
    requires env.Ok() && Timely(Bootstrap(env, seed).core.queue)
  {
    Drain(env, Bootstrap(env, seed).core, h1).core
  }

  function Resumed(env: Env, c: Core): Core { c.(world := Reading(c.world, RosterOdometers(env, c.world.odometer))) }

  lemma TripIsQueued(env: Env, seed: Word, h1: nat, t: TrailerId) returns (item: Scheduled)
    requires env.Ok() && IsId(t, env.TrailerCount()) && Timely(Bootstrap(env, seed).core.queue)
    ensures item in AtCut(env, seed, h1).queue && TripOf(item.task, t)
  {
    AfterZero(env, seed);
    hide Drain, Bootstrap, After, Recurring;
    var n := DrainIsReachable(env, seed, 0, h1, After(env, seed, 0));
    OnePendingTaskEach(env, seed, n, Trips(t));
    var queue := After(env, seed, n).core.queue;
    var i :| 0 <= i < |queue| && Recurring(queue[i].task) && ActivityOf(queue[i].task) == Trips(t);
    item := queue[i];
  }

  lemma ChunkedEvents(env: Env, seed: Word, h1: nat, h2: nat)
    requires env.Ok() && h1 <= h2
    ensures Startable(FreshStart(seed)) && Genuine(env, FreshStart(seed)) && Timely(Bootstrap(env, seed).core.queue)
    ensures var c := AtCut(env, seed, h1);
            Timely(c.queue)
            && RunInChunks(env, FreshStart(seed), [h1, h2]).events
               == RunToHorizon(env, FreshStart(seed), h1).events + Drain(env, Resumed(env, c), h2).events
  {
    BeginSettled(env, FreshStart(seed));
    RunIsGenuine(env, FreshStart(seed), h1);
    DrainSettled(env, Bootstrap(env, seed).core, h1);
    var c := AtCut(env, seed, h1);
    RestoreUndoesCapture(env, c, seed, h1);
    assert [h1, h2][1..] == [h2];
    hide Drain, Bootstrap, Restore, RosterOdometers, Settled, OdometersAtZero;
    assert [] + Drain(env, Resumed(env, c), h2).events == Drain(env, Resumed(env, c), h2).events;
  }

  lemma RunEvents(env: Env, seed: Word, h: nat)
    requires env.Ok() && Timely(Bootstrap(env, seed).core.queue) && Startable(FreshStart(seed))
    ensures RunToHorizon(env, FreshStart(seed), h).events
            == Bootstrap(env, seed).events + Drain(env, Bootstrap(env, seed).core, h).events
  {
    hide Drain, Bootstrap;
  }

  lemma WholeEvents(env: Env, seed: Word, h1: nat, h2: nat)
    requires env.Ok() && h1 <= h2 && Timely(Bootstrap(env, seed).core.queue) && Startable(FreshStart(seed))
    ensures Timely(AtCut(env, seed, h1).queue)
    ensures RunToHorizon(env, FreshStart(seed), h2).events
            == RunToHorizon(env, FreshStart(seed), h1).events + Drain(env, AtCut(env, seed, h1), h2).events
  {
    hide RunToHorizon, Drain, Bootstrap;
    RunEvents(env, seed, h1);
    RunEvents(env, seed, h2);
    DrainedFurther(env, Bootstrap(env, seed), h1, h2);
  }

  lemma DrainedFurther(env: Env, begun: Ran, h1: int, h2: int)
    requires env.Ok() && h1 <= h2 && Timely(begun.core.queue)
    ensures begun.events + Drain(env, begun.core, h2).events
            == begun.events + Drain(env, begun.core, h1).events + Drain(env, Drain(env, begun.core, h1).core, h2).events
  {
    hide Drain;
    DrainInTwo(env, begun.core, h1, h2);
    var drained := Drain(env, begun.core, h1);
    assert begun.events + (drained.events + Drain(env, drained.core, h2).events)
        == begun.events + drained.events + Drain(env, drained.core, h2).events;
  }

  /** From the cut on: the two runs emit the same if and only if the two states drain alike. */
  lemma EventsFromTheCut(env: Env, seed: Word, h1: nat, h2: nat)
    requires env.Ok() && h1 <= h2
    ensures Startable(FreshStart(seed)) && Genuine(env, FreshStart(seed)) && Timely(Bootstrap(env, seed).core.queue)
    ensures var c := AtCut(env, seed, h1);
            Timely(c.queue)
            && (RunInChunks(env, FreshStart(seed), [h1, h2]).events == RunToHorizon(env, FreshStart(seed), h2).events
                <==> Drain(env, Resumed(env, c), h2).events == Drain(env, c, h2).events)
  {
    hide Drain, Bootstrap, RunInChunks, RunToHorizon, AtCut;
    ChunkedEvents(env, seed, h1, h2);
    WholeEvents(env, seed, h1, h2);
    var c := AtCut(env, seed, h1);
    SameFront(RunToHorizon(env, FreshStart(seed), h1).events, Drain(env, Resumed(env, c), h2).events, Drain(env, c, h2).events);
  }

  /** A cut that finds miles on some odometer of the roster shows in the events of some later horizon. */
  lemma MilesAtTheCutShow(env: Env, seed: Word, h1: nat) returns (h2: nat)
    requires env.Ok() && env.fuelOn && Distances(env) && Startable(FreshStart(seed))
    requires !OdometersAtZero(env, RunToHorizon(env, FreshStart(seed), h1).continuation.world)
    ensures h1 <= h2 && Genuine(env, FreshStart(seed))
    ensures RunInChunks(env, FreshStart(seed), [h1, h2]).events != RunToHorizon(env, FreshStart(seed), h2).events
  {
    AtCutRolls(env, seed, h1);
    var c := AtCut(env, seed, h1);
    hide AtCut, Drain, Bootstrap, Settled, Metered, QueueRolls, OdometersAtZero, RosterOdometers, Lead, RunToHorizon, RunInChunks, TripOf, Behind;
    var t, k := SomeoneIsBehind(env, c.world);
    var item := TripIsQueued(env, seed, h1, t);
    ResetIsBehind(env, c.world.odometer);
    var h := Chase(env, c, Resumed(env, c), t, item, k);
    h2 := h;
    EventsFromTheCut(env, seed, h1, h2);
  }

  lemma AtCutRolls(env: Env, seed: Word, h1: nat)
    requires env.Ok() && env.fuelOn && Distances(env)
    ensures Startable(FreshStart(seed)) && Timely(Bootstrap(env, seed).core.queue)
    ensures var c := AtCut(env, seed, h1);
            && Rolling(env, c) && RunToHorizon(env, FreshStart(seed), h1).continuation.world == c.world
            && (c.queue == [] || c.queue[0].fireTick > h1)
  {
    BootstrapTimely(env, seed);
    BootstrapRolls(env, seed);
    hide Drain, Bootstrap, Rolling;
    DrainRolls(env, Bootstrap(env, seed).core, h1);
    DrainStops(env, Bootstrap(env, seed).core, h1);
  }

  /**
   * With any flags, any network and any seed: the chunked run emits exactly the events of the uncut
   * one, to every later horizon, if and only if the roster loop finds every odometer at zero.
   */
  lemma CutIsSilentIff(env: Env, seed: Word, h1: nat)
    requires env.Ok() && Distances(env)
    ensures Startable(FreshStart(seed)) && Genuine(env, FreshStart(seed))
    ensures (forall h2: nat :: h1 <= h2 ==>
               RunInChunks(env, FreshStart(seed), [h1, h2]).events == RunToHorizon(env, FreshStart(seed), h2).events)
            <==> OdometersAtZero(env, RunToHorizon(env, FreshStart(seed), h1).continuation.world)
  {
    var start := FreshStart(seed);
    CutIsInvisibleIff(env, start, h1);
    if !OdometersAtZero(env, RunToHorizon(env, start, h1).continuation.world) {
      hide RunInChunks, RunToHorizon;
      var h2 := MilesAtTheCutShow(env, seed, h1);
    }
  }

  // ----- A cut that shows, on any network ------------------------------------------------------------------

  /** `item` is the one queued task of its trailer's round. */
  ghost predicate OnlyTask(queue: seq<Scheduled>, item: Scheduled, t: TrailerId) {
    item in queue && TripOf(item.task, t) && forall x :: x in queue && TripOf(x.task, t) ==> x == item
  }

  /** A firing of any other task leaves this trailer's task and odometer alone. */
  lemma OthersLeaveIt(env: Env, core: Core, item: Scheduled, t: TrailerId)
    requires env.Ok() && env.fuelOn && Timely(core.queue) && core.queue != [] && OnlyTask(core.queue, item, t) && item != core.queue[0]
    ensures var next := Step(env, core).core;
            OnlyTask(next.queue, item, t) && Miles(next.world.odometer, t) == Miles(core.world.odometer, t)
  {
    hide Fire, NextMiles, ScheduleAll;
    var head := core.queue[0];
    assert head in core.queue && !TripOf(head.task, t);
    var spawned := Fire(env, core.rng, core.world, head.task, head.fireTick).spawned;
    FireMiles(env, core.rng, core.world, head.task, head.fireTick);
    FireReschedules(env, core.rng, core.world, head.task, head.fireTick);
    StaysQueued(env, core, item);
    forall x | x in Step(env, core).core.queue && TripOf(x.task, t) ensures x == item {
      ScheduleAllMembers(Queued(core.queue[1..], core.nextSeq), spawned, x);
      if x in core.queue[1..] { assert x in core.queue; }
    }
  }

  lemma OnceInTheQueue(queue: seq<Scheduled>, nextSeq: nat)
    requires Numbered(queue, nextSeq) && queue != []
    ensures queue[0] !in queue[1..]
  {
  }

  /** A departure from zero puts its miles on the odometer; the arrival that follows is strictly later. */
  lemma DepartureCounts(env: Env, core: Core, t: TrailerId) returns (next: Scheduled)
    requires env.Ok() && env.fuelOn && Settled(env, core) && core.queue != []
    requires OnlyTask(core.queue, core.queue[0], t) && core.queue[0].task.DepartTrailer?
    requires Miles(core.world.odometer, t) == 0.0
    requires 0.0 < Leg(env, core.queue[0].task.spoke) < env.fuelConfig.refuelThresholdMiles
    ensures OnlyTask(Step(env, core).core.queue, next, t) && next.task.ArriveTrailer? && core.queue[0].fireTick < next.fireTick
    ensures Miles(Step(env, core).core.world.odometer, t) > 0.0
  {
    hide Fire, Sorted, HasSpokes;
    var item := core.queue[0];
    FireMiles(env, core.rng, core.world, item.task, item.fireTick);
    OnceInTheQueue(core.queue, core.nextSeq);
    next := DepartureLeaves(env, core, t);
  }

  lemma DepartureLeaves(env: Env, core: Core, t: TrailerId) returns (next: Scheduled)
    requires env.Ok() && Timely(core.queue) && core.queue != [] && core.queue[0].task.DepartTrailer?
    requires OnlyTask(core.queue, core.queue[0], t) && core.queue[0] !in core.queue[1..]
    ensures OnlyTask(Step(env, core).core.queue, next, t) && next.task.ArriveTrailer? && core.queue[0].fireTick < next.fireTick
  {
    hide Fire;
    var item := core.queue[0];
    assert item in core.queue;
    FireReschedules(env, core.rng, core.world, item.task, item.fireTick);
    var spawned := Fire(env, core.rng, core.world, item.task, item.fireTick).spawned;
    assert forall x :: x in core.queue[1..] ==> x in core.queue && !TripOf(x.task, t);
    next := LastSpawnedIsQueued(Queued(core.queue[1..], core.nextSeq), spawned, t);
  }

  /** Of what a departure schedules only the last goes on with the round. */
  lemma LastSpawnedIsQueued(q: Queued, spawned: seq<Timed>, t: TrailerId) returns (y: Scheduled)
    requires spawned != [] && TripOf(spawned[|spawned| - 1].task, t)
    requires forall i :: 0 <= i < |spawned| - 1 ==> !Recurring(spawned[i].task)
    requires forall x :: x in q.queue ==> !TripOf(x.task, t)
    ensures OnlyTask(ScheduleAll(q, spawned).queue, y, t)
    ensures y.fireTick == spawned[|spawned| - 1].fireTick && y.task == spawned[|spawned| - 1].task
  {
    var init, last := spawned[..|spawned| - 1], spawned[|spawned| - 1];
    var before := ScheduleAll(q, init);
    y := Scheduled(last.fireTick, before.nextSeq, last.task);
    InsertMembers(before.queue, y);
    forall x | x in before.queue ensures !TripOf(x.task, t) { ScheduleAllMembers(q, init, x); }
  }

  /** Drained to the tick of its first departure, the trailer has miles on its odometer. */
  lemma {:induction false} FirstLegCounts(env: Env, core: Core, item: Scheduled, t: TrailerId, h: int)
    requires env.Ok() && env.fuelOn && Settled(env, core) && OnlyTask(core.queue, item, t)
    requires if item.task.DepartTrailer?
             then item.fireTick == h && Miles(core.world.odometer, t) == 0.0
                  && 0.0 < Leg(env, item.task.spoke) < env.fuelConfig.refuelThresholdMiles
             else h < item.fireTick && Miles(core.world.odometer, t) > 0.0
    ensures Miles(Drain(env, core, h).core.world.odometer, t) > 0.0
    decreases QueueTicksLeft(core.queue, h), |core.queue|
  {
    DueFirst(env, core, item);
    if core.queue[0].fireTick <= h {
      StepTerminates(env, core, h);
      StepSettled(env, core);
      hide Step, Sorted, Numbered, HasSpokes, TripOf, OnlyTask, QueueTicksLeft;
      if item == core.queue[0] {
        var next := DepartureCounts(env, core, t);
        FirstLegCounts(env, Step(env, core).core, next, t, h);
      } else {
        OthersLeaveIt(env, core, item, t);
        FirstLegCounts(env, Step(env, core).core, item, t, h);
      }
    }
  }

  lemma TheOneTrip(queue: seq<Scheduled>, t: TrailerId) returns (item: Scheduled)
    requires exists i :: 0 <= i < |queue| && TripOf(queue[i].task, t)
    requires forall i, j :: 0 <= i < j < |queue| && TripOf(queue[i].task, t) ==> !TripOf(queue[j].task, t)
    ensures OnlyTask(queue, item, t)
  {
    hide TripOf;
    var i :| 0 <= i < |queue| && TripOf(queue[i].task, t);
    item := queue[i];
  }

  /** At the start the first trailer's one task is its departure for the first spoke at tick 1. */
  lemma FirstTask(env: Env, seed: Word) returns (item: Scheduled)
    requires env.Ok()
    ensures var queue := Bootstrap(env, seed).core.queue;
            OnlyTask(queue, item, 1) && item.fireTick == 1 && item.task.DepartTrailer? && item.task.spoke == Spoke(0)
  {
    AfterZero(env, seed);
    OnePendingTaskEach(env, seed, 0, Trips(1));
    hide After, Bootstrap, OnlyTask;
    item := TheOneTrip(Bootstrap(env, seed).core.queue, 1);
    FirstTaskIs(env, seed, item) by { OnlyTaskIsIn(Bootstrap(env, seed).core.queue, item); }
  }

  lemma OnlyTaskIsIn(queue: seq<Scheduled>, item: Scheduled)
    requires OnlyTask(queue, item, 1)
    ensures item in queue && TripOf(item.task, 1)
  {
  }

  lemma FirstTaskIs(env: Env, seed: Word, item: Scheduled)
    requires env.Ok() && item in Bootstrap(env, seed).core.queue && TripOf(item.task, 1)
    ensures item.fireTick == 1 && item.task.DepartTrailer? && item.task.spoke == Spoke(0)
  {
    ScheduleAllMembers(Queued([], 0), InitialSchedule(env), item);
    hide InitialSchedule, ScheduleAll;
    InitialOnRoster(env, Timed(item.fireTick, item.task));
    assert 0 % env.spokeCount == 0 && 0 / env.spokeCount == 0;
  }

  /**
   * On every network whose first leg has miles, fewer than the range, whatever its seed and its other
   * flags: cut at tick 1, the run emits other events than the uncut one from some horizon on.
   */
  lemma FuelBreaksContinuation(env: Env, seed: Word) returns (h2: nat)
    requires env.Ok() && env.fuelOn && Distances(env)
    requires 0.0 < Leg(env, Spoke(0)) < env.fuelConfig.refuelThresholdMiles
    ensures 1 <= h2 && Startable(FreshStart(seed)) && Genuine(env, FreshStart(seed))
    ensures RunInChunks(env, FreshStart(seed), [1, h2]).events != RunToHorizon(env, FreshStart(seed), h2).events
  {
    BootstrapRolls(env, seed);
    BootstrapTimely(env, seed);
    assert IsId(1, env.TrailerCount());
    var item := FirstTask(env, seed);
    var core := Bootstrap(env, seed).core;
    assert Miles(core.world.odometer, 1) == 0.0;
    hide Bootstrap, Drain, OnlyTask, TripOf, RunInChunks, Settled;
    FirstLegCounts(env, core, item, 1, 1);
    h2 := MilesAtTheCutShow(env, seed, 1);
  }
}
