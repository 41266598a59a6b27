/**
 * How a run opens and closes, and what is shown in between: which trailer first leaves for which spoke and
 * when, the streams seeded apart, the queue a capture leaves; the stops on the road and the arrivals at the
 * center.
 */
module SimStarts {
  import Hos
  import opened Generators
  import opened SimTypes
  import opened EventQueues
  import opened Simulation
  import opened SimRuns
  import opened SimChunks
  import opened SimVisits
  import opened SimBooks
  import A = SimArrivals
  import G = Rng
  import opened SimLegs

  // ----- The first departures --------------------------------------------------------------------

  lemma TimesMore(a: int, b: int, n: nat)
    requires a < b
    ensures a * n + n <= b * n
  {
    assert (b - a - 1) * n >= 0;
    assert (b - a - 1) * n == b * n - a * n - n;
  }

  lemma SlotOf(n: nat, slot: nat, s: nat)
    requires s < n
    ensures (slot * n + s) / n == slot && (slot * n + s) % n == s
  {
    var x := slot * n + s;
    SameQuotient(x, x / n, x % n, slot, s, n);
  }

  lemma SameQuotient(x: int, q: int, r: int, slot: int, s: int, n: nat)
    requires x == q * n + r && x == slot * n + s && 0 <= r < n && 0 <= s < n
    ensures q == slot && r == s
  {
    if q < slot { TimesMore(q, slot, n); } else if slot < q { TimesMore(slot, q, n); }
  }

  lemma SlotBelow(n: nat, fleet: nat, slot: nat, s: nat)
    requires s < n && slot < fleet
    ensures slot * n + s < n * fleet
  {
    assert (slot + 1) * n <= fleet * n;
  }

  /** Slot by slot, one trailer leaves for every spoke: the first at minute one, each further slot seven minutes on. */
  lemma EverySlotLeaves(env: Env, slot: nat, s: nat)
    requires env.Ok() && slot < env.fleetPerSpoke && s < env.spokeCount
    ensures Timed(1 + 7 * slot, DepartTrailer(slot * env.spokeCount + s + 1, Spoke(s), 1 + 7 * slot)) in InitialSchedule(env)
    ensures |RosterDepartures(env, env.TrailerCount())| == env.spokeCount * env.fleetPerSpoke
  {
    var k := slot * env.spokeCount + s;
    SlotOf(env.spokeCount, slot, s);
    SlotBelow(env.spokeCount, env.fleetPerSpoke, slot, s);
    RosterDeparturesTimely(env, env.TrailerCount());
    hide RosterDepartures;
    var roster := RosterDepartures(env, env.TrailerCount());
    assert roster[k] == RosterDeparture(env, k);
    assert InitialSchedule(env)[1 + k] == roster[k];
  }

  // ----- Streams seeded apart ------------------------------------------------------------------------

  ghost predicate Injective(mix: Word -> Word) { forall a, b :: mix(a) == mix(b) ==> a == b }

  /** What is mixed into the seed of stream `i`. */
  function Salt(i: nat): Word
    requires i < 8
  {
    if i == 0 then 0 else if i == 1 then RFID_RNG_SALT else if i == 2 then OVER_CARRY_RNG_SALT else if i == 3 then TIMING_RNG_SALT
    else if i == 4 then HOS_RNG_SALT else if i == 5 then FUEL_RNG_SALT else if i == 6 then INDUCTION_RNG_SALT else OUTBOUND_RNG_SALT
  }

  /** The seed of stream `i`, before the finaliser. */
  function Salted(seed: Word, i: nat): Word
    requires i < 8
  {
    if i == 0 then seed else seed ^ Salt(i)
  }

  lemma XorKeepsApart(seed: Word, a: Word, b: Word)
    requires a != b
    ensures seed ^ a != seed ^ b
  {
    assert seed ^ (seed ^ a) == a && seed ^ (seed ^ b) == b;
  }

  lemma XorNothing(seed: Word)
    ensures seed ^ 0 == seed
  {
  }

  lemma SaltsApart(i: nat, j: nat)
    requires i < j < 8
    ensures Salt(i) != Salt(j)
  {
  }

  lemma SaltedApart(seed: Word, i: nat, j: nat)
    requires i < j < 8
    ensures Salted(seed, i) != Salted(seed, j)
  {
    SaltsApart(i, j);
    assert i == 0 ==> Salt(i) == 0;
    hide Salt;
    XorNothing(seed);
    XorKeepsApart(seed, Salt(i), Salt(j));
  }

  /** The word stream `i` of a fresh run starts from, if the stream exists. */
  function Opening(r: RngStates, i: nat): Option<Word>
    requires i < 8
  {
    if i == 0 then Some(r.base) else if i == 1 then Some(r.rfid) else if i == 2 then Some(r.overCarry)
    else if i == 3 then Some(r.timing) else if i == 4 then Some(r.hos)
    else if i == 5 then r.fuel else if i == 6 then r.induction else r.outbound
  }

  predicate StreamIsOn(env: Env, i: nat) {
    (i == 5 ==> env.fuelOn) && (i == 6 ==> env.inductionOn) && (i == 7 ==> env.outboundOn)
  }

  lemma OpeningIs(env: Env, seed: Word, i: nat)
    requires i < 8
    ensures Opening(FreshRng(env, seed), i) == if StreamIsOn(env, i) then Some(env.generator.mix(Salted(seed, i))) else None
  {
    hide Seeded, Salted, Salt, FreshRng;
    SeededIs(env, seed, i);
    EarlyStreams(env, seed);
    LateStreams(env, seed);
  }

  lemma EarlyStreams(env: Env, seed: Word)
    ensures var r := FreshRng(env, seed);
      && r.base == env.generator.mix(seed) && r.rfid == Seeded(env, seed, Salt(1)) && r.overCarry == Seeded(env, seed, Salt(2))
      && r.timing == Seeded(env, seed, Salt(3)) && r.hos == Seeded(env, seed, Salt(4))
  {
    hide Seeded;
  }

  lemma LateStreams(env: Env, seed: Word)
    ensures var r := FreshRng(env, seed);
      && r.fuel == (if env.fuelOn then Some(Seeded(env, seed, Salt(5))) else None)
      && r.induction == (if env.inductionOn then Some(Seeded(env, seed, Salt(6))) else None)
      && r.outbound == (if env.outboundOn then Some(Seeded(env, seed, Salt(7))) else None)
  {
    hide Seeded;
  }

  lemma SeededIs(env: Env, seed: Word, i: nat)
    requires i < 8
    ensures env.generator.mix(Salted(seed, i)) == if i == 0 then env.generator.mix(seed) else Seeded(env, seed, Salt(i))
  {
    hide Salt;
  }

  /** If the seed finaliser is injective no two streams of a run start from the same word, whatever the seed and flags. */
  lemma StreamsStartApart(env: Env, seed: Word, i: nat, j: nat)
    requires Injective(env.generator.mix) && i < j < 8
    ensures var r := FreshRng(env, seed);
      && (Opening(r, i).Some? <==> StreamIsOn(env, i))
      && (Opening(r, i).Some? && Opening(r, j).Some? ==> Opening(r, i) != Opening(r, j))
  {
    hide FreshRng, Opening, Salted;
    OpeningIs(env, seed, i);
    OpeningIs(env, seed, j);
    SaltedApart(seed, i, j);
  }

  // ----- A capture is a cut -------------------------------------------------------------------------------

  lemma {:induction false} DrainLeavesTheFuture(env: Env, core: Core, horizon: int)
    requires env.Ok() && Settled(env, core)
    ensures Timely(core.queue)
    ensures forall x :: x in Drain(env, core, horizon).core.queue ==> horizon < x.fireTick
    decreases QueueTicksLeft(core.queue, horizon), |core.queue|
  {
    hide Step;
    if core.queue == [] || core.queue[0].fireTick > horizon {
      SortedFromHead(core.queue);
    } else {
      StepTerminates(env, core, horizon);
      StepSettled(env, core);
      DrainLeavesTheFuture(env, Step(env, core).core, horizon);
    }
  }

  lemma SortedFromHead(queue: seq<Scheduled>)
    requires Sorted(queue)
    ensures forall x :: x in queue ==> queue[0].fireTick <= x.fireTick
  {
  }

  /** Everything still queued in a captured continuation is due at its next tick or later. */
  lemma CaptureIsACut(env: Env, seed: Word, horizon: nat)
    requires env.Ok()
    ensures var c := RunToHorizon(env, FreshStart(seed), horizon).continuation;
      c.nextTick == horizon + 1 && c.seed == seed && forall x :: x in c.queue ==> c.nextTick <= x.fireTick
  {
    hide Bootstrap, Drain, Settled;
    BootstrapSettled(env, seed);
    DrainLeavesTheFuture(env, Bootstrap(env, seed).core, horizon);
  }

  // ----- On the road ---------------------------------------------------------------------------------------

  /** Gallons to the nearest whole one: what the miles have burnt, or a tankful if they have burnt more. */
  function Gallons(env: Env, miles: int): int
    requires env.Ok()
  {
    var burnt := miles as real / env.fuelConfig.milesPerGallon;
    Round(if burnt > env.fuelConfig.tankCapacityGallons then env.fuelConfig.tankCapacityGallons else burnt)
  }

  /** The stops of a leg are logged with the reasons and minutes they were scheduled with, then the refuelling. */
  lemma StopsAre(env: Env, rng: RngStates, w: World, t: TrailerId, trip: TripId, rests: seq<Pause>, refuelled: bool, odometer: real, at: int)
    requires env.Ok()
    ensures var r, miles := Fire(env, rng, w, MidLegStops(t, trip, rests, refuelled, odometer), at), Round(odometer);
      && r.rng == rng && r.world == w && r.spawned == []
      && |r.events| == |rests| + (if refuelled then 1 else 0)
      && (forall i :: 0 <= i < |rests| ==> r.events[i] == On(t, TruckRested(t, trip, rests[i].reason, rests[i].minutes), at))
      && (refuelled ==> r.events[|rests|] == On(t, TruckRefueled(t, trip, Gallons(env, miles), miles, Round(env.fuelConfig.refuelTimeMinutes)), at))
  {
    hide Round;
  }

  lemma RoundIsMonotone(x: real, y: real)
    requires x <= y
    ensures Round(x) <= Round(y)
  {
  }

  /** No more than a tankful is ever taken on. */
  lemma NeverMoreThanATank(env: Env, miles: int)
    requires env.Ok()
    ensures Gallons(env, miles) <= Round(env.fuelConfig.tankCapacityGallons)
  {
    var burnt := miles as real / env.fuelConfig.milesPerGallon;
    RoundIsMonotone(if burnt > env.fuelConfig.tankCapacityGallons then env.fuelConfig.tankCapacityGallons else burnt, env.fuelConfig.tankCapacityGallons);
  }

  // ----- Back at the center -----------------------------------------------------------------------------------

  /** A package held back comes off at the center. */
  lemma OverCarriedIs(env: Env, rng: RngStates, w: World, t: TrailerId, p: PackageId, trip: TripId, at: int)
    requires env.Ok()
    ensures var r := Fire(env, rng, w, ArriveOverCarriedAtCenter(t, p, trip), at);
      && r.rng == rng && r.world == w && r.spawned == []
      && r.events == [On(t, TrailerArrivedAtHub(t, Center, trip), at), On(t, TrailerDocked(t, Center), at)] + Off([p], Center, at)
  {
    assert [p][1..] == [];
  }

  lemma {:induction false} CrossDockLogs(e: Effect, packages: seq<PackageId>, now: int)
    ensures var r := CrossDock(e, packages, now);
      && r.rng == e.rng && r.spawned == e.spawned && r.events == e.events + Off(packages, Center, now)
  {
    hide PushTo;
    if packages == [] {
      assert e.events + [] == e.events;
    } else {
      var front, p := packages[..|packages| - 1], packages[|packages| - 1];
      assert front + [p] == packages;
      CrossDockLogs(e, front, now);
      OffOfLonger(front, p, Center, now);
      var two := [Of(p, PackageScanned(p, Center, Unload), now), Of(p, PackageArrivedAtHub(p, Center), now)];
      assert UnloadEvents(p, Center, now) == two;
      Regroup(e.events, Off(front, Center, now), two);
    }
  }

  /** The packages of a consolidation come off at the center in the order they are listed. */
  lemma ConsolidationIs(env: Env, rng: RngStates, w: World, t: TrailerId, packages: seq<PackageId>, trip: TripId, at: int)
    requires env.Ok()
    ensures var r := Fire(env, rng, w, ArriveConsolidationAtCenter(t, packages, trip), at);
      && r.rng == rng && r.spawned == []
      && r.events == [On(t, TrailerArrivedAtHub(t, Center, trip), at), On(t, TrailerDocked(t, Center), at)] + Off(packages, Center, at)
  {
    hide CrossDock;
    CrossDockLogs(Effect(rng, w, [], []).Emit(ArrivalEvents(t, Center, trip, at)), packages, at);
    assert [] + ArrivalEvents(t, Center, trip, at) == ArrivalEvents(t, Center, trip, at);
  }

  lemma StepsOfTheGenerator(env: Env, word: Word, n: nat)
    requires n > 0 && env.generator == G.Mulberry32()
    ensures Next(env, word) == word + G.INCREMENT && Draw(env, word, n) == Scaled(G.Output(word + G.INCREMENT), n)
  {
    hide G.Output, Scaled;
  }

  lemma {:induction false} WordAfter(env: Env, word: Word, k: nat)
    requires env.generator == G.Mulberry32()
    ensures Drawn(env, word, k) == G.StateAfter(word, k)
  {
    if k > 0 {
      hide *;
      StateStep(word, k);
      WordAfter(env, word, k - 1);
      DrawnOneMore(env, word, k - 1);
      StepsOfTheGenerator(env, G.StateAfter(word, k - 1), 1);
    }
  }

  lemma StateStep(word: Word, k: nat)
    requires k > 0
    ensures G.StateAfter(word, k) == G.StateAfter(word, k - 1) + G.INCREMENT
  {
  }

  /** On the generator of the source, the task that draws after `k` draws of a stream draws the stream's next output. */
  lemma TasksDrawTheStream(env: Env, word: Word, k: nat, n: nat)
    requires n > 0 && env.generator == G.Mulberry32()
    ensures Draw(env, Drawn(env, word, k), n) == Scaled(G.Output(G.StateAfter(word, k + 1)), n)
  {
    WordAfter(env, word, k);
    StepsOfTheGenerator(env, G.StateAfter(word, k), n);
    hide G.Mulberry32, G.Output, Scaled, Draw, Drawn;
  }

  // ----- Whole numbers from what was sampled -----------------------------------------------------

  /** A leg or a dwell lasts what was sampled, and never less than a minute. */
  lemma NothingTakesNoTime(env: Env, word: Word, from: Hub, to: Hub)
    ensures var (rest, ticks), t := env.sampleTransit(word, from, to), DrawTransit(env, word, from, to);
      t.0 == rest && 1 <= t.1 && (1 <= ticks ==> t.1 == ticks) && (ticks < 1 ==> t.1 == 1)
    ensures var (rest, ticks), t := env.sampleDwell(word, to), DrawDwell(env, word, to);
      t.0 == rest && 1 <= t.1 && (1 <= ticks ==> t.1 == ticks) && (ticks < 1 ==> t.1 == 1)
  {
  }

  /** Minutes, miles and gallons are rounded to the nearest whole number, halves up. */
  lemma NearestWhole(x: real, n: int)
    ensures Round(x) == n <==> n as real - 0.5 <= x < n as real + 0.5
  {
  }

  // ----- What a run begins by saying ------------------------------------------------------------

  lemma OpeningSays(env: Env)
    ensures var log, s, r := BootstrapEvents(env), env.spokeCount, |env.routes|;
      && |log| == 1 + s + r + (if env.hosOn then env.TrailerCount() + 6 * env.fleetPerSpoke else 0)
      && log[0] == SimEvent(HubStream(Center), HubRegistered(Center), 0)
      && (forall i :: 1 <= i <= s ==> log[i] == SimEvent(HubStream(Spoke(i - 1)), HubRegistered(Spoke(i - 1)), 0))
      && (forall i :: 1 + s <= i < 1 + s + r ==>
            var (from, to) := env.routes[i - 1 - s]; log[i] == SimEvent(RouteStream(from, to), RouteRegistered(from, to), 0))
      && (forall i :: 1 + s + r <= i < |log| ==> log[i] == SimEvent(DriverStream(i - s - r), DriverRegistered(i - s - r), 0))
  {
  }

  /** Every reachable log begins, at tick 0, with the hubs, the routes and, with hours of service on, the drivers, each once. */
  lemma AnnouncedFirst(env: Env, seed: Word, n: nat)
    requires env.Ok()
    ensures var log, s, r := After(env, seed, n).log, env.spokeCount, |env.routes|;
      var d := if env.hosOn then env.TrailerCount() + 6 * env.fleetPerSpoke else 0;
      && 1 + s + r + d <= |log|
      && log[0] == SimEvent(HubStream(Center), HubRegistered(Center), 0)
      && (forall i :: 1 <= i <= s ==> log[i] == SimEvent(HubStream(Spoke(i - 1)), HubRegistered(Spoke(i - 1)), 0))
      && (forall i :: 1 + s <= i < 1 + s + r ==>
            var (from, to) := env.routes[i - 1 - s]; log[i] == SimEvent(RouteStream(from, to), RouteRegistered(from, to), 0))
      && (forall i :: 1 + s + r <= i < 1 + s + r + d ==> log[i] == SimEvent(DriverStream(i - s - r), DriverRegistered(i - s - r), 0))
  {
    OpeningSays(env);
    NothingFiredYet(env, seed);
    hide *;
    A.LogGrows(env, seed, 0, n);
    var opening, log := BootstrapEvents(env), After(env, seed, n).log;
    assert forall i :: 0 <= i < |opening| ==> log[i] == opening[i];
  }

  lemma NothingFiredYet(env: Env, seed: Word)
    requires env.Ok()
    ensures After(env, seed, 0).log == BootstrapEvents(env)
  {
    hide BootstrapEvents, ScheduleAll, InitialSchedule;
  }

  /** Trailer by trailer the drivers are bound in order, and the spares are numbered on from there, six to a slot. */
  lemma DriversAreBoundInOrder(env: Env, seed: Word)
    requires env.Ok() && env.hosOn
    ensures var w := After(env, seed, 0).core.world;
      && (forall t :: 1 <= t <= env.TrailerCount() ==> DriverOf(w, t) == t)
      && |w.sparePool| == 6 * env.fleetPerSpoke
      && forall i :: 0 <= i < |w.sparePool| ==> w.sparePool[i] == env.TrailerCount() + 1 + i
  {
    hide BootstrapEvents, ScheduleAll, InitialSchedule;
  }
}
