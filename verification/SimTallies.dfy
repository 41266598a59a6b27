/**
 * The counters a continuation carries against the log: how many packages were created, inducted and
 * delivered so far. Only the task of each kind moves its counter, once for every such event it logs, so a
 * resumed run goes on numbering and counting where the log left off.
 */
module SimTallies {
  import opened Generators
  import opened SimTypes
  import opened EventQueues
  import opened Simulation
  import opened SimRuns
  import opened SimBooks
  import opened SimChunks
  import opened SimTimeline
  import opened SimArrivals
  import opened SimCadence

  datatype Milestone = Creation | Induction | Delivery

  predicate Marks(m: Milestone, e: DomainEvent) {
    match m case Creation => e.PackageCreated? case Induction => e.PackageInducted? case Delivery => e.PackageDelivered?
  }

  function CountOf(log: seq<SimEvent>, m: Milestone): nat {
    if log == [] then 0 else CountOf(log[..|log| - 1], m) + if Marks(m, log[|log| - 1].event) then 1 else 0
  }

  function Counter(w: World, m: Milestone): nat {
    match m case Creation => w.packageCounter case Induction => w.inductionCounter case Delivery => w.deliveredCounter
  }

  lemma {:induction false} CountOfSum(a: seq<SimEvent>, b: seq<SimEvent>, m: Milestone)
    ensures CountOf(a + b, m) == CountOf(a, m) + CountOf(b, m)
  {
    if b == [] {
      assert a + b == a;
    } else {
      var front, last := b[..|b| - 1], b[|b| - 1];
      assert (a + b)[..|a + b| - 1] == a + front && (a + b)[|a + b| - 1] == last;
      CountOfSum(a, front, m);
    }
  }

  lemma {:induction false} NoneMarked(log: seq<SimEvent>, m: Milestone)
    requires forall i :: 0 <= i < |log| ==> !Marks(m, log[i].event)
    ensures CountOf(log, m) == 0
  {
    if log != [] { NoneMarked(log[..|log| - 1], m); }
  }

  // ----- One firing --------------------------------------------------------------------------------

  ghost predicate Tallies(w: World, r: Effect) {
    forall m: Milestone :: Counter(r.world, m) == Counter(w, m) + CountOf(r.events, m)
  }

  lemma {:induction false} AppearTally(env: Env, word: Word, first: nat, count: nat, at: int, m: Milestone)
    requires env.Ok()
    ensures CountOf(AllAppear(env, word, first, count, at), m) == if m == Creation then count else 0
  {
    if count > 0 {
      AppearTally(env, word, first, count - 1, at, m);
      var pair := Appears(env, word, first, count - 1, at);
      CountOfSum(AllAppear(env, word, first, count - 1, at), pair, m);
      CountOfTwo(pair, m);
    }
  }

  lemma CountOfTwo(log: seq<SimEvent>, m: Milestone)
    requires |log| == 2
    ensures CountOf(log, m) == (if Marks(m, log[0].event) then 1 else 0) + if Marks(m, log[1].event) then 1 else 0
  {
    CountOfSum([log[0]], [log[1]], m);
    assert log == [log[0]] + [log[1]];
    CountOfOne(log[0], m);
    CountOfOne(log[1], m);
  }

  lemma CountOfOne(e: SimEvent, m: Milestone)
    ensures CountOf([e], m) == if Marks(m, e.event) then 1 else 0
  {
    assert [e][..0] == [];
  }

  lemma NoneOfNone()
    ensures forall m: Milestone :: CountOf([], m) == 0
  {
  }

  lemma OneOrNone(events: seq<SimEvent>, kind: Milestone, m: Milestone)
    requires |events| <= 1 && (|events| == 1 ==> Marks(kind, events[0].event))
    ensures CountOf(events, m) == if m == kind then |events| else 0
  {
    if |events| == 1 {
      assert events == [events[0]];
      CountOfOne(events[0], m);
    }
  }

  lemma {:induction false} MakingCounts(env: Env, e: Effect, count: nat, now: int)
    requires env.Ok()
    ensures var v := MakePackages(env, e, count, now).world;
      v.inductionCounter == e.world.inductionCounter && v.deliveredCounter == e.world.deliveredCounter
  {
    hide PushTo, Draw;
    if count > 0 { MakingCounts(env, e, count - 1, now); }
  }

  lemma BatchTallies(env: Env, rng: RngStates, w: World, tick: int, now: int)
    requires env.Ok()
    ensures Tallies(w, Fire(env, rng, w, CreatePackageBatch(tick), now))
  {
    BatchIs(env, rng, w, tick, now);
    BatchLeaves(env, rng, w, tick, now);
    hide Fire, AllAppear, BatchDraw;
    var (count, word) := BatchDraw(env, rng.base);
    var all := AllAppear(env, word, w.packageCounter + 1, count, now);
    forall m: Milestone ensures CountOf(all, m) == if m == Creation then count else 0 {
      AppearTally(env, word, w.packageCounter + 1, count, now, m);
    }
    NoneOfNone();
  }

  lemma BatchLeaves(env: Env, rng: RngStates, w: World, tick: int, now: int)
    requires env.Ok()
    ensures var v := Fire(env, rng, w, CreatePackageBatch(tick), now).world;
      v.inductionCounter == w.inductionCounter && v.deliveredCounter == w.deliveredCounter
  {
    var e := Effect(rng, w, [], []);
    var (word, count) := BatchSize(env, rng.base);
    MakingCounts(env, e.(rng := rng.(base := word)), if count > 0 then count else 0, now);
    hide MakePackages, Draw;
  }

  lemma InductionTallies(env: Env, rng: RngStates, w: World, tick: int, now: int)
    requires env.Ok()
    ensures Tallies(w, Fire(env, rng, w, InductPackage(tick), now))
  {
    hide Draw, PushTo, SlaBuffer;
    var r := Fire(env, rng, w, InductPackage(tick), now);
    assert |r.events| <= 1 && (|r.events| == 1 ==> r.events[0].event.PackageInducted?);
    assert SameCounters(w, r.world.(inductionCounter := w.inductionCounter));
    assert r.world.inductionCounter == w.inductionCounter + |r.events|;
    hide Fire;
    forall m: Milestone { OneOrNone(r.events, Induction, m); }
  }

  lemma DeliveryTallies(env: Env, rng: RngStates, w: World, task: SimTask, now: int)
    requires env.Ok() && task.DeliverPackage?
    ensures Tallies(w, Fire(env, rng, w, task, now))
  {
    var r := Fire(env, rng, w, task, now);
    assert |r.events| <= 1 && (|r.events| == 1 ==> r.events[0].event.PackageDelivered?);
    assert SameCounters(w, r.world.(deliveredCounter := w.deliveredCounter));
    assert r.world.deliveredCounter == w.deliveredCounter + |r.events|;
    hide Fire;
    forall m: Milestone { OneOrNone(r.events, Delivery, m); }
  }

  lemma OthersCountNothing(env: Env, rng: RngStates, w: World, task: SimTask, now: int)
    requires env.Ok() && !task.CreatePackageBatch? && !task.InductPackage? && !task.DeliverPackage?
    ensures SameCounters(w, Fire(env, rng, w, task, now).world)
  {
    var e := Effect(rng, w, [], []);
    match task
    case DepartTrailer(t, spoke, departTick) =>
      hide Depart;
      DepartHandles(env, e, t, spoke, departTick, now);
    case ArriveTrailer(t, spoke, trip, carried, tick) =>
      hide Arrive, LandsOnce;
      ArriveLands(env, rng, w, t, spoke, trip, carried, tick, now);
    case ArriveConsolidationAtCenter(t, packages, trip) =>
      hide ArriveConsolidation;
      ConsolidationHandles(e, t, packages, trip, now);
    case _ => hide Depart, Arrive, ArriveConsolidation;
  }

  lemma FireTallies(env: Env, rng: RngStates, w: World, task: SimTask, now: int)
    requires env.Ok()
    ensures Tallies(w, Fire(env, rng, w, task, now))
  {
    hide Fire;
    if task.CreatePackageBatch? {
      BatchTallies(env, rng, w, task.tick, now);
    } else if task.InductPackage? {
      InductionTallies(env, rng, w, task.tick, now);
    } else if task.DeliverPackage? {
      DeliveryTallies(env, rng, w, task, now);
    } else {
      OthersCountNothing(env, rng, w, task, now);
      var events := Fire(env, rng, w, task, now).events;
      forall i | 0 <= i < |events| ensures LogsFor(task, events[i], now) { FireLogs(env, rng, w, task, now, i); }
      forall m: Milestone { NoneMarked(events, m); }
    }
  }

  // ----- Whole runs ----------------------------------------------------------------------------------

  ghost predicate Tallied(h: History) {
    forall m: Milestone :: Counter(h.core.world, m) == CountOf(h.log, m)
  }

  lemma StepTallied(env: Env, h: History)
    requires env.Ok() && h.core.queue != [] && Tallied(h)
    ensures Tallied(StepHistory(env, h))
  {
    hide Fire, ScheduleAll;
    var head := h.core.queue[0];
    var r := Fire(env, h.core.rng, h.core.world, head.task, head.fireTick);
    FireTallies(env, h.core.rng, h.core.world, head.task, head.fireTick);
    forall m: Milestone { CountOfSum(h.log, r.events, m); }
  }

  lemma OpeningMarksNothing(env: Env, i: nat, m: Milestone)
    requires i < |BootstrapEvents(env)|
    ensures !Marks(m, BootstrapEvents(env)[i].event)
  {
  }

  lemma NothingHappenedYet(env: Env, seed: Word)
    requires env.Ok()
    ensures Tallied(After(env, seed, 0))
  {
    NothingCounted(env, seed);
    hide BootstrapEvents, Bootstrap, After;
    var log := BootstrapEvents(env);
    forall m: Milestone ensures CountOf(log, m) == 0 {
      forall i | 0 <= i < |log| ensures !Marks(m, log[i].event) { OpeningMarksNothing(env, i, m); }
      NoneMarked(log, m);
    }
  }

  lemma NothingCounted(env: Env, seed: Word)
    requires env.Ok()
    ensures var h := After(env, seed, 0);
      && h.log == BootstrapEvents(env)
      && h.core.world.packageCounter == 0 && h.core.world.inductionCounter == 0 && h.core.world.deliveredCounter == 0
  {
    hide BootstrapEvents, ScheduleAll, InitialSchedule;
  }

  /** In every reachable state the counters are the numbers of packages the log names as created, inducted, delivered. */
  lemma {:induction false} CountersTallyTheLog(env: Env, seed: Word, n: nat)
    requires env.Ok()
    ensures Tallied(After(env, seed, n))
  {
    hide Bootstrap, StepHistory, Tallied;
    if n == 0 {
      NothingHappenedYet(env, seed);
    } else {
      CountersTallyTheLog(env, seed, n - 1);
      var h := After(env, seed, n - 1);
      if h.core.queue != [] { StepTallied(env, h); }
    }
  }
}
