# A verified model of the freight network's hard core

The repository simulates a hub-and-spoke freight network, records what happens in an append-only event
store, plans trailers over it, and shows it live. This project models the eight parts of it that carry
state or arithmetic worth proving things about, and proves their laws in Dafny 4.11. `dafny verify
dfyconfig.toml` checks all of it.

| part | modules |
|---|---|
| Resumable simulator | `SimTypes`, `EventQueues`, `Clocks`, `Generators`, `Rng`, `Simulation` (what each task does), `SimRuns` (draining, restoring), `Engine` and `Resumable` (the engine as a mutable class); laws over runs in `SimChunks`, `SimMiles`, `SimFuel`, `SimFreight`, `SimBooks`, `SimJourneys`, `SimTimeline`, `SimDrivers`, `SimArrivals`, `SimDeadlines`, `SimCadence`, `SimTallies`, laws of single tasks in `SimLegs`, `SimRelays`, `SimVisits`, `SimStarts` |
| Hours of service | `Hos`, `HosLaws` |
| Flow decomposition | `FlowDecomposition`, `FlowLaws`, `FlowAssignments` |
| Event log protocol | `EventLog` (an interleaved step system), `EventLogLaws`, `EventStore` (the store as a class), `RollingService`, `RollingLaws`, `RollingStatus` |
| Geo-track projection | `GeoTrack` (reducer, tables, catch-up runner), `GeoTrackLaws`, `GeoFrames` |
| Load pipeline | `Sorting`, `NextFit`, `PlanningTypes`, `BlockIds`, `Aggregation`, `AggregationLaws`, `AggregationTotals`, `AggregationSplits`, `AggregationOrders`, `LoadPlanner`, `LoadValidator`, `LoadLaws`, `PlacementLaws`, `UnloadLaws`, `RehandleLaws` |
| Live delivery | `Pacing`, `Coalescing`, `LiveDelivery`, `Envelope`, `EnvelopeLaws`, `SnapshotChannel` |
| Zone fusion | `Fusion`, `FusionLaws`, `FusionEvidence` |

How the parts are built:

- Code that changes things in place is a class or a method with loops, proved equal to a function of the
  old state; the laws are about that function and about every state it can reach. The simulator's engine
  has one method per task kind and is tied, method by method, to `Simulation.Fire`. What a departure, a
  visit, a batch, an induction and a delivery do is stated a second time, on its own terms, in `SimLegs`,
  `SimVisits`, `SimCadence` and `SimDeadlines`, and proved of `Fire`.
- `After(env, seed, n)` is the state after `n` firings of the run of a seed. The simulator's laws hold for
  every `n`; `SimTimeline.RunIsReachable` says that every whole run ends in such a state.
- Configuration is an `Env` value: flags, network size, rates, and the generator, travel estimator and
  reader as arbitrary functions of a 32-bit word, constrained only by the clamps the source applies
  (transit and dwell at least one tick). `Rng` models the generator itself bit for bit.
- Time is whole minutes, one tick a minute. Quantities with fractions are reals.

Where the code does not do what its documentation says, the code is modelled, and a member states exactly
when the documented property holds:

- Chunked runs are documented to equal whole runs under every flag. With fuel on, the loop over the roster
  (`packages/simulation/src/engine.ts:774-776`) runs on resume too and sets every odometer back to zero. A cut
  changes no event at any later horizon if and only if the odometers at the cut are at zero
  (`SimFuel.CutIsSilentIff`; for whole continuations, `SimChunks.CutIsInvisibleIff`), and on every network with
  fuel on, whose first spoke is nearer than the refuelling range, cutting at tick 1 changes the events at some
  later horizon (`SimFuel.FuelBreaksContinuation`).
- The hours-of-service labels are legal only if the limits fit together, which nothing in the configuration
  demands. One curing rest must serve several limits: `HosLaws.EngineIsLegalIff` has the exact condition,
  `HosLaws.AShortRestartSkipsTheRest`, `HosLaws.AShortRestartSkipsTheBreak` and `HosLaws.AShortRestSkipsTheBreak`
  an illegal leg where it fails; the default limits meet it.
- A driver is said to keep a trailer whenever the leg fits with no mandatory rest, and a relief to drive it
  through because it comes fresh (`packages/simulation/src/engine.ts:1361-1366`, `:1528-1530`). The test looks
  at the day and not at the week, and one fresh day may be shorter than the leg: the exact conditions are
  `SimRelays.KeptDriverNeedsNoPauseIff` and `SimRelays.ReliefNeedsNoPauseIff`, and `SimRelays.AKeptDriverParks`
  is a kept driver who has to park.
- `packages/projections/src/runner/catchup.ts:31-33` says a rebuild of the projections gives the live state
  byte for byte. The geo-track pass drops an arrived trip's leg before it writes the arrival keyframe, outside
  a transaction, so a process that dies in between loses that keyframe for good: `GeoTrackLaws.ALostArrival`;
  the exact condition is `GeoTrackLaws.LiveIsRebuiltIff`, and for one event `GeoTrackLaws.RefoldIsFoldIff`.
- `packages/aggregation/src/split.ts:22-23` calls splitting idempotent. A package larger than the cap
  keeps being split off under a new suffix unless it is the very first bin:
  `AggregationSplits.SplitIsIdempotentIff`, `AggregationSplits.AnOversizedSecondKeepsSplitting`.
- The claim table is described as making a crash in mid-epoch recoverable
  (`packages/api/src/optimizer/rolling-service.ts:41`). The claim is inserted with do-nothing on conflict
  whatever the earlier status, so an epoch that failed or crashed before its append is never retried:
  `RollingLaws.ACrashAbandons`. A key can still be written if and only if it is not so abandoned
  (`RollingLaws.WritableIffNotAbandoned`), and a call commits if and only if its key has no row in the claim
  table (`RollingLaws.CommitsIffUnclaimed`). After a restart a trailer's next plan carries no supersession:
  `RollingLaws.SupersessionChain`, `RollingLaws.ARestartBreaksTheChain`. A claim ends FAILED also when its
  plan is in the log and only the closing update threw: `RollingStatus.StatusTells` says which is which.
- The tick delta has no way to withdraw a hub or a route, so one that disappears lingers on the client:
  `EnvelopeLaws.PatchIsExactIff`, `EnvelopeLaws.VanishedHubsAndRoutesLinger`.
- Peeling unit paths uses up the whole flow only if no flow leaves a demand node; the walk stops at the
  first one: `FlowLaws.FlowIsConsumedIff`, `FlowLaws.AThroughFlowIsLeftOver`.
- `packages/sensor-fusion/src/fuse.ts:32` puts every confidence strictly below one. A certain prior with no
  observation to temper it keeps its one: `FusionLaws.ConfidenceBelowOneIff`,
  `FusionLaws.ACertainPriorStaysCertain`.

## Model

| member | source | states |
|---|---|---|
| SimChunks.ChunkedRunIsWholeRun | packages/simulation/src/engine.ts:2042-2124 | With fuel off, running to each of any ascending horizons in turn, resuming every time from the continuation just captured, yields concatenated exactly the events of the one run to the last horizon and the same final continuation; for every genuine start, generator and flag combination |
| SimChunks.CutIsInvisibleIff | packages/simulation/src/engine.ts:774-776 | With any flags, a cut is invisible to every later horizon if and only if the odometers at the cut are already what the roster loop writes on resume: the exact condition under which equivalence holds, fuel on or off |
| SimChunks.ResumeToSameHorizon | packages/simulation/src/engine.ts:2042-2124 | Resuming to the horizon just reached emits nothing and returns the continuation it was given with the roster loop applied to the odometers; it is the same continuation if and only if that loop finds nothing to change |
| SimChunks.RestoreUndoesCapture | packages/simulation/src/engine.ts:2061-2124 | Restoring a captured state gives back every field but the odometers; the state comes back whole if and only if the odometers are at zero |
| SimChunks.RunIsGenuine | packages/simulation/src/engine.ts:512-520 | What any run captures is itself a genuine start, so runs can be chained without end |
| SimChunks.DrainInTwo | packages/simulation/src/engine.ts:2042-2053 | Draining to a horizon and then to a later one is draining to the later one at once: same state, events concatenated |
| SimFuel.CutIsSilentIff | packages/simulation/src/engine.ts:774-776 | With any flags, the chunked run emits the events of the whole run at every later horizon if and only if every odometer was at zero at the cut: a trailer with miles behind it refuels at a different departure |
| SimFuel.FuelBreaksContinuation | packages/simulation/src/engine.ts:774-776 | For every seed and every network with fuel on whose first spoke is at a positive distance short of the refuelling range: a horizon at which the run cut at tick 1 has emitted other events than the whole run |
| SimMiles.FireBlind | packages/simulation/src/engine.ts:1965-2006 | Every task but a departure does the same whatever the odometers read, and leaves them as they are |
| SimRuns.StepTerminates | packages/simulation/src/engine.ts:2042-2053 | Every firing lowers a lexicographic measure (ticks still owed by the recurring tasks up to the horizon, then queue length), although tasks put themselves back |
| SimRuns.FireReschedules | packages/simulation/src/engine.ts:1154 | Whatever fires at its own tick schedules, for each recurring activity it ends, exactly one successor strictly later, and otherwise only one-shot tasks that are not in the past |
| SimRuns.Drain | packages/simulation/src/engine.ts:2042-2053 | The drain loop as a total function to any horizon: what is left queued is again such that every task acts at the tick it is filed under |
| SimFreight.FireBalances | packages/simulation/src/engine.ts:1965-2006 | Firing any sound task conserves every token (a package, or the round trip of a trailer): queued plus waiting plus retired changes exactly by what was newly issued |
| SimFreight.OnwardNeverThrows | packages/simulation/src/engine.ts:1933-1939 | A repeat-free list whose packages all have a recorded onward spoke never reaches the no-onward-destination throw, although each turn deletes a record |
| SimFreight.ConsolidateBalances | packages/simulation/src/engine.ts:1760-1818 | Splicing a spoke's staged manifest into a consolidation trip loses and doubles no package |
| SimBooks.BooksAlwaysBalance | packages/simulation/src/engine.ts:2042-2053 | In every state reachable from a seed the books of packages, trips, batches and inductions balance and the staged and onward records agree |
| SimTimeline.ExactlyOnePlace | packages/simulation/src/engine.ts:1060-1092 | In every reachable state each package named in the log as created or inducted is in exactly one of: a pending task, a spoke manifest, a consolidation manifest, or done; any other is in none; issued means named in the log |
| SimTimeline.EveryJourneyIsRight | packages/simulation/src/engine.ts:1661-1696 | In every reachable log each package id is named once at most and has one destination; a package leaves a hub only if it entered there, comes off a trailer it rode, at its own destination, or at the center after being held back or consolidated; it is delivered at most once, at its destination, strictly after arriving there; once delivered it is nowhere in the network |
| SimTimeline.UnloadedAtTheCenter | packages/simulation/src/engine.ts:1845-1943 | A package that comes off at the center was brought by a departure from a spoke where it had been inducted, or was held back alone at its own destination by the trailer it rode there |
| SimTimeline.NextTaskIsSafe | packages/simulation/src/engine.ts:2051-2052 | In every reachable state the clock advance of the next firing is not negative, no task is pending in the past, and the firing does not throw |
| SimTimeline.OnePendingTaskEach | packages/simulation/src/engine.ts:1837-1842 | In every reachable state each activity that runs (batches, inductions when on, the round trip of each trailer) has exactly one pending task |
| SimTimeline.RunIsReachable | packages/simulation/src/engine.ts:512-520 | Every run from a seed ends in one of the reachable states the laws above speak of, having emitted exactly its log |
| SimJourneys.FireOnCourse | packages/simulation/src/engine.ts:1611-1843 | Firing keeps every logged event, manifest and queued task justified by what was logged before it: departures from where the package was, arrivals off the trailer ridden, at the destination or, for held-back and consolidated packages only, the center |
| SimJourneys.OneDestination | packages/simulation/src/engine.ts:1060-1092 | A package the log names has one destination |
| SimDrivers.DriversArePartitioned | packages/simulation/src/engine.ts:1028-1053 | In every reachable state the registered drivers split into exactly one bound driver per trailer, no driver bound twice, and a spare pool of constant size |
| SimDrivers.RelayedDriversRest | packages/simulation/src/engine.ts:1403-1456 | In every reachable log, a driver swapped in by a relay was swapped out, if ever, at least the off-duty reset time earlier |
| SimDrivers.SelectKeepsPool | packages/simulation/src/engine.ts:1366-1457 | Whichever way a driver is chosen (kept and stamped, kept for want of a relief, relayed), the partition and the rests survive and the trailer is bound to the driver returned |
| SimArrivals.EveryArrivalTookTheLeg | packages/simulation/src/engine.ts:1460-1609 | In every reachable log an arrival at a spoke is that of a trip whose departure stands earlier in the log, and, with hours of service on, comes no earlier than that departure plus the driving and every mandatory pause of the leg from the clock of its driver |
| SimArrivals.PendingArrivalTakesTheLeg | packages/simulation/src/engine.ts:1570-1609 | In every reachable state a pending arrival was scheduled by an earlier departure of the same trip, and is due no earlier than the end of the leg its driver may legally drive |
| SimArrivals.NoArrivalBeforeTheLegIsDriven | packages/simulation/src/engine.ts:1532-1580 | The arrival comes no earlier than the end of the legal leg; without refuelling it is exactly the driving plus the jittered pauses, and with it the larger of the pauses and the refuelling counts, once |
| SimArrivals.OffDutyArrival | packages/simulation/src/engine.ts:1566-1580 | With hours of service off the arrival is the transit plus the refuelling, if any |
| SimLegs.DepartureOnDuty | packages/simulation/src/engine.ts:1460-1609 | With hours of service on, the draws, events, tasks and bookings of a departure, for the crew the selection leaves on the trailer: the leg is driven legally from that crew's clock, told pause by pause with one jitter each, and the driver booked until the arrival |
| SimLegs.DepartureOffDuty | packages/simulation/src/engine.ts:1460-1609 | The same with hours of service off: nobody is asked and nothing is added for pauses |
| SimLegs.LegPausesAreTold | packages/simulation/src/engine.ts:1311-1353 | Every pause of the leg, and nothing else, is told on the driver's stream at the departure, in order, with one jitter draw each; the extra minutes are those of the pauses and of their jitters |
| SimRelays.SelectionIs | packages/simulation/src/engine.ts:1366-1457 | Exactly when the leg does not fit the driver's day, a spare is free and would get further, the first such spare in pool order takes over on a fresh clock, the driver relieved goes off for the reset and keeps the weekly count; otherwise nothing but the booking stamp changes |
| SimRelays.CrewIs | packages/simulation/src/engine.ts:1500-1526 | The crew of a departure is the driver found on the trailer with its clock, or the relief of a relay with a fresh clock and the two hand-over events |
| SimRelays.NoPauseIff | packages/domain/src/hos.ts:285-351 | A leg needs no pause if and only if it fits the remaining minutes of the day and of the week |
| SimRelays.KeptDriverNeedsNoPauseIff | packages/simulation/src/engine.ts:1361-1366 | A driver who keeps the trailer because the leg fits drives it through if and only if it also fits the week, which the test does not look at |
| SimRelays.AKeptDriverParks | packages/simulation/src/engine.ts:1361-1366 | Under the default limits a driver with one minute of the week left keeps the trailer for a leg of two and has to park |
| SimRelays.ReliefNeedsNoPauseIff | packages/simulation/src/engine.ts:1528-1530 | A relief drives the leg through if and only if it fits one fresh day, window, stretch and week |
| SimRelays.ReliefGetsFurther | packages/simulation/src/engine.ts:1392-1402 | A relief never has to stop sooner than the driver relieved: its first stretch is longer |
| SimDeadlines.PromisesAndDeliveries | packages/simulation/src/engine.ts:1170-1300 | In every reachable log an induction between two spokes promises the expected travel plus the slack of its class, and a delivery comes one to twenty minutes after the package came off at its hub, on time if and only if no promise about it had run out |
| SimVisits.VisitIs | packages/simulation/src/engine.ts:1611-1843 | A visit logs exactly its landing, reads, scans, held-back return and consolidation, in that order, and schedules exactly its deliveries, returns and the next departure, each after the durations drawn for it |
| SimVisits.HeldAtTheExtremes | packages/simulation/src/engine.ts:1640-1660 | At an over-carry rate of one the last package always rides on, at zero none does |
| SimVisits.StagedLeavesInOrder | packages/simulation/src/engine.ts:1760-1818 | A consolidation lists the staged packages in id order, each once |
| SimCadence.BatchIs | packages/simulation/src/engine.ts:1095-1155 | A batch brings exactly the packages drawn, three draws each, outside the quiet window and nothing in it, and the next batch a quarter of an hour on |
| SimCadence.FreightKeepsTheQuarter | packages/simulation/src/engine.ts:1060-1254 | In every reachable log packages are created on the quarter of an hour outside the quiet window, for a spoke of the network, within the size classes and weights, tagged exactly when tags are read; inductions come a minute past the half hour |
| SimTallies.CountersTallyTheLog | packages/simulation/src/engine.ts:780-789 | In every reachable state the counters of packages created, inducted and delivered are the numbers of such events in the log |
| SimStarts.EverySlotLeaves | packages/simulation/src/engine.ts:740-778 | One trailer per slot and spoke leaves first at minute one, each further slot seven minutes later |
| SimStarts.AnnouncedFirst | packages/simulation/src/engine.ts:995-1053 | Every reachable log begins at tick 0 with the hubs, the routes and, with hours of service on, the drivers, in order and each once |
| SimStarts.StreamsStartApart | packages/simulation/src/engine.ts:86-127 | If the seed finaliser is injective, no two streams of a run start from the same word, whatever the seed and flags |
| SimStarts.TasksDrawTheStream | packages/simulation/src/rng.ts:61-93 | On the generator of the source, a task that draws after k draws of its stream draws exactly the stream's next output, scaled |
| SimStarts.CaptureIsACut | packages/simulation/src/engine.ts:2061-2124 | What a captured continuation still has queued is due at its next tick or later |
| SimStarts.StopsAre | packages/simulation/src/engine.ts:1985-1992 | The stops of a leg are logged in order with the reasons and minutes they were scheduled with, then the refuelling with the gallons burnt, at most a tankful |
| SimStarts.ConsolidationIs | packages/simulation/src/engine.ts:1895-1943 | The packages of a consolidation come off at the center in the order listed |
| EventQueues.SortedIsUnique | packages/simulation/src/engine.ts:461-463 | Two sorted queues with the same items are the same: `(fireTick, seq)` order does not depend on the order of pushes |
| EventQueues.PushedBehindItsTick | packages/simulation/src/engine.ts:450-467 | A task pushed last fires after everything due no later than itself and before everything due later: first pushed, first fired within a tick |
| EventQueues.EventQueue.Push | packages/simulation/src/engine.ts:452-455 | The queue gains exactly the item; the lazy dirty flag is not visible in its ordered contents |
| EventQueues.EventQueue.Pop | packages/simulation/src/engine.ts:458-467 | Removes and returns the least item in `(fireTick, seq)` order, sorting in place only when something was pushed; nothing from the empty queue |
| EventQueues.EventQueue.Snapshot | packages/simulation/src/engine.ts:479-484 | The ordered contents, leaving the queue as it was |
| Engine.SimEngine.CreatePackageBatch | packages/simulation/src/engine.ts:1095-1155 | In-place batch creation has exactly the effect of the batch function: draws, manifests, events and the next batch; nothing but the next batch in the quiet window |
| Engine.SimEngine.InductPackage | packages/simulation/src/engine.ts:1170-1254 | In-place induction has exactly the effect of the induction function on the draws, deadline, staging, record and next task |
| Engine.SimEngine.DeliverPackage | packages/simulation/src/engine.ts:1272-1300 | A delivery has exactly the effect of the delivery function and schedules nothing |
| Engine.SimEngine.SelectDriverForLeg | packages/simulation/src/engine.ts:1366-1457 | The relay decision, hand-over and rebind equal the selection function on the same world |
| Engine.SimEngine.AccrueDrivingLeg | packages/simulation/src/engine.ts:1311-1353 | Runs the shared hours-of-service loop, draws one jitter per inserted pause in order, and returns the extra minutes and rests of the specification |
| Engine.SimEngine.DepartTrailer | packages/simulation/src/engine.ts:1460-1609 | A departure as coded, step by step, equals the composed departure function, which does what `SimLegs.DepartureOnDuty` and `SimLegs.DepartureOffDuty` state: the arrival is due after the driving and the longer of the mandatory pauses and the refuelling |
| Engine.SimEngine.ArriveTrailer | packages/simulation/src/engine.ts:1611-1843 | An arrival as coded equals the composed arrival function: unload, hold-back, deliveries, return leg, consolidation, next departure; what that function does is stated by `SimVisits.VisitIs` |
| Engine.SimEngine.ArriveConsolidationAtCenter | packages/simulation/src/engine.ts:1895-1943 | The cross-dock equals its function, and fails exactly where some package finds no record when its turn comes |
| Engine.SimEngine.DispatchTask | packages/simulation/src/engine.ts:1965-2006 | The switch over the eight task kinds equals one firing of the specification, and fails exactly where the source throws |
| Engine.SimEngine.DrainTo | packages/simulation/src/engine.ts:2042-2053 | The drain loop terminates, never throws from a state in good books, and ends in exactly the state and events of the drain function |
| Resumable.Run | packages/simulation/src/engine.ts:512-2124 | Refuses a negative horizon; otherwise ends without throwing in exactly the events and continuation of the run function, fresh or resumed |
| Resumable.StartResumed | packages/simulation/src/engine.ts:580-707 | A resumed engine holds exactly the restored state: rng words, queue, counters, manifests, odometers as the roster loop leaves them |
| Resumable.CapturedCanResume | packages/simulation/src/continuation.ts:199-201 | A continuation captured by any run, with any flags, meets everything a resume relies on |
| Clocks.VirtualClock.Advance | packages/simulation/src/clock.ts:41-46 | Moves by exactly the ticks given; a negative count is refused and leaves the clock alone |
| Rng.RestoredDrawsTheRest | packages/simulation/src/rng.ts:61-93 | Drawing, capturing the word and rebuilding from it draws exactly what the uninterrupted generator would have drawn |
| Rng.SeededRng.Next | packages/simulation/src/rng.ts:67-73 | One draw moves the state word once and reads the output off the new word, in 32-bit wrap-around arithmetic |
| Rng.SeededRng.Int | packages/simulation/src/rng.ts:75-80 | A draw scaled below the bound; a bound below one is refused before any draw |
| Rng.DrawnByShare | packages/simulation/src/rng.ts:75-80 | A draw below n cuts the 2^32 outputs into n equal shares, in order |
| HosLaws.EngineLogIsLegal | packages/domain/src/hos.ts:285-351 | An independent checker accepts every log the engine labels, for all coherent limits, any starting clock with a non-negative weekly count and any leg: 11 h and the 14 h window between rests of at least the reset time, 8 h between pauses of at least the break time, 70 h between rests of at least the restart time (sections 395.3(a)(2), 395.3(a)(3), 395.3(b) and 395.3(c) of 49 CFR) |
| HosLaws.EngineIsLegalIff | packages/domain/src/hos.ts:285-351 | For all positive limits the engine's logs are legal, whatever the clock and leg, if and only if the limits are coherent: the restart is no shorter than the reset and the break, and the break no longer than the reset unless one minute of driving already earns a break or fills the week |
| HosLaws.AShortRestartSkipsTheRest | packages/domain/src/hos.ts:302-348 | With a restart shorter than the reset, a driver out of both hours and week is put back on the road after the restart alone: an illegal log |
| HosLaws.AShortRestartSkipsTheBreak | packages/domain/src/hos.ts:302-348 | With a restart shorter than the break, a driver due a break and out of week drives on after the restart alone: an illegal log |
| HosLaws.AShortRestSkipsTheBreak | packages/domain/src/hos.ts:302-348 | With a reset shorter than the break, a driver out of daily hours a minute before a break is due rests, and then drives past the break limit: an illegal log |
| HosLaws.DefaultLimitsAreCoherent | packages/domain/src/hos.ts:83-104 | The default limits are coherent, so the engine is legal under them |
| HosLaws.LongestLegalDrive | packages/domain/src/hos.ts:212-221 | The checker accepts one drive of m minutes if and only if m is within the remaining legal minutes and the weekly headroom |
| HosLaws.CutAnywhere | packages/domain/src/hos.ts:285-351 | A leg of a+b minutes cut after a, the second part run from the first part's clock and end, gives the same final clock, end and merged timeline, for every clock, limit, a and b |
| HosLaws.LegTotals | packages/domain/src/hos.ts:285-351 | Driving totals the leg exactly, the end is the start plus every minute logged, and a non-empty leg ends with a drive |
| HosLaws.AtMostTwoPausesBeforeADrive | packages/domain/src/hos.ts:302-348 | Never more than two pauses in a row, from any point of the log |
| HosLaws.SingleDriveIff | packages/domain/src/hos.ts:302-348 | A non-empty leg is one drive segment if and only if it fits both the remaining legal minutes and the weekly headroom |
| HosLaws.ClockReadsOffTheLog | packages/domain/src/hos.ts:240-351 | After any leg the whole clock can be read off the log: driving since the last rest, since the last pause and since the last restart, and on duty, with the window open, from the end of the last rest |
| HosLaws.AFreshDay | packages/domain/src/hos.ts:83-104 | Under the default limits a fresh driver's log is eight hours of driving, a half-hour break, three hours, ten hours of rest and the remainder, for every leg of one day and a bit |
| HosLaws.AFreshWindow | packages/domain/src/hos.ts:190-234 | Setting off late, a fresh driver has eight hours until six hours after coming on duty, then what is left of fourteen, and drives at all if and only if some is left and fewer than seventy hours are on the week |
| Hos.TurnMakesProgress | packages/domain/src/hos.ts:302-348 | Each turn of the loop drives, or pauses and lowers the rank of pauses still possible: the termination measure |
| Hos.ApplyDrivingLeg | packages/domain/src/hos.ts:285-351 | The loop ends and yields exactly the labelling function of its inputs; a negative leg is a range error |
| FlowLaws.EveryUnitReachesASink | packages/optimizer/src/flow/assign-freight.ts:75-123 | On a feasible acyclic flow every unit of every positive supply, in order, is traced along a simple connected path from its node to a demand node |
| FlowLaws.NoEdgeIsOverdrawn | packages/optimizer/src/flow/assign-freight.ts:86-97 | On any graph and any non-negative flow, uses of an edge plus what is left on it equal its flow; so no edge is used more than it carries |
| FlowLaws.FlowIsConsumedIff | packages/optimizer/src/flow/assign-freight.ts:40-73 | On a feasible acyclic flow nothing is left over if and only if no flow leaves a demand node: the exact condition, readable off the solver's answer |
| FlowLaws.WhatLeavesADemandStays | packages/optimizer/src/flow/assign-freight.ts:103-123 | On a feasible acyclic flow an edge out of a demand node keeps its whole flow |
| FlowLaws.AThroughFlowIsLeftOver | packages/optimizer/src/flow/assign-freight.ts:103-123 | A feasible acyclic flow of two units through one demand node to another, of which one unit is left on the second edge |
| FlowLaws.CostsAddUp | packages/optimizer/src/flow/assign-freight.ts:86-100 | Block costs plus the cost of what is left equal the cost of the flow, always; so they sum to the optimum where everything is consumed |
| FlowAssignments.AssignmentsCarryTheBlocks | packages/optimizer/src/flow/assign-freight.ts:6-101 | On a feasible acyclic flow the assignments are, in order, one per positive supply under its node id; each list of legs cuts into exactly as many consecutive runs as the supply has units, each leading edge by edge from that node to a demand node, and the cost is that of the legs named |
| FlowAssignments.NamedAndLeftMakeTheFlow | packages/optimizer/src/flow/assign-freight.ts:75-101 | On any graph with non-negative flow the times an edge id is named, over all assignments, plus what is left on the edge equal its flow |
| FlowLaws.ACycleCanStrandAUnit | packages/optimizer/src/flow/assign-freight.ts:103-123 | A conserving flow with a cycle can strand a unit short of any sink, so acyclicity is needed |
| FlowDecomposition.AssignFreight | packages/optimizer/src/flow/assign-freight.ts:40-73 | The loops over the mutable remaining map yield exactly the decomposition of the flow; an infeasible result yields no assignments |
| FlowDecomposition.TraceUnitPath | packages/optimizer/src/flow/assign-freight.ts:103-123 | The walk over a node's own adjacency list finds exactly the path a search of the whole edge list would find |
| FlowDecomposition.DecomposeBlock | packages/optimizer/src/flow/assign-freight.ts:75-101 | Peeling a block leaves the flow less one unit per edge of each path, and reports those paths |
| EventLogLaws.GlobalOrderIsCommitOrder | packages/event-store/src/store.ts:31-35 | In every interleaving of writers, readers and sweeps the order of `global_seq` is the order of commits |
| EventLogLaws.StreamsHaveNoGaps | packages/event-store/src/store.ts:137-164 | In every interleaving each stream carries versions 1, 2, ..., N, where N is its version row |
| EventLogLaws.AppendsAreAllOrNothing | packages/event-store/src/store.ts:200-225 | In every interleaving a finished append owns exactly one commit, of all its events, directly on the version its build was given; any other writer owns none; attempts stay within the retries |
| EventLogLaws.ConflictMeansOvertaken | packages/event-store/src/store.ts:154-163 | Under the lock the compare-and-set of a default append fails if and only if its stream has grown since the version was loaded |
| EventLogLaws.BackstopNeverFires | packages/event-store/src/store.ts:37-64 | In every reachable state the row about to be inserted is free, so the unique-violation path cannot be taken |
| EventLogLaws.ReadersFoldInOrder | packages/projections/src/runner/catchup.ts:155-169 | In every interleaving, crashes between upsert and checkpoint included, the rows a projection has upserted are a prefix of the committed history, the last perhaps not yet checkpointed: nothing skipped, repeated or reordered |
| EventLogLaws.PassReadsEverythingElse | packages/event-store/src/store.ts:283-294 | In every reachable state a pass reads exactly the committed rows after its checkpoint, pruned log or not |
| EventLogLaws.PruningIsInvisible | packages/api/src/sim/retention.ts:59-103 | Any run with sweeps interleaved ends exactly like the same run without them, except for the rows still stored |
| EventStore.EventStore.AppendToStream | packages/event-store/src/store.ts:92-130 | Returns and stores exactly the outcome for the version found; on a conflict or invalid event nothing changes |
| EventStore.EventStore.AppendWithRetry | packages/event-store/src/store.ts:200-225 | The retry loop of a lone writer: lands on the version its build was given, or reports why; rows, last position and the whole version table move only when it lands, and then only this stream's version, to the version landed on |
| EventStore.EventStore.PruneEventLog | packages/api/src/sim/retention.ts:82-103 | Keeps exactly the rows some catch-up projection may still need with the margin, all of them while a checkpoint is missing, and counts what went |
| EventStore.AloneIsUninterrupted | packages/event-store/src/store.ts:103-126 | Left alone, the interleaved steps of one attempt change the tables exactly as the transaction method does |
| RollingLaws.OneBatchPerKey | packages/api/src/optimizer/rolling-service.ts:232-253 | In every interleaving of epochs, failures, crashes and restarts no two plan batches in the log share (horizon start, horizon end, scope hash) |
| RollingLaws.SupersessionChain | packages/api/src/optimizer/rolling-service.ts:280-323 | Over any calls and restarts, a batch after a trailer's first names the immediately preceding plan and exactly the set staged when that one committed, if and only if one service instance committed both; otherwise it carries no supersession |
| RollingLaws.ARestartBreaksTheChain | packages/api/src/optimizer/rolling-service.ts:280-323 | Commit, restart, commit for the same trailer: two batches, the second without a supersession |
| RollingLaws.AbandonedForGood | packages/api/src/optimizer/rolling-service.ts:195-211 | A claimed key that no call in flight can write stays claimed and unwritten whatever happens next, restarts included |
| RollingLaws.ACrashAbandons | packages/api/src/optimizer/rolling-service.ts:195-211 | From nothing: evaluate, claim, and crash or fail before the append; the key of any offered result is then abandoned |
| RollingLaws.WritableIffNotAbandoned | packages/api/src/optimizer/rolling-service.ts:195-211 | In any world some further moves write a key's batch if and only if the key is not abandoned |
| RollingLaws.OnlyTheFirstTryCounts | packages/api/src/optimizer/rolling-service.ts:164-215 | Over any calls and restarts a key is claimed if and only if some call tried it, and its batch is in the log if and only if the first call that tried it appended |
| RollingLaws.CommitsIffUnclaimed | packages/api/src/optimizer/rolling-service.ts:195-211 | After any calls, an untroubled call with an accepted plan commits if and only if its key has no row in the claim table |
| RollingStatus.StatusTells | packages/api/src/optimizer/rolling-service.ts:195-215 | Over any calls and restarts a claim is COMPLETED if and only if the first call that tried its key went well, and FAILED otherwise; a COMPLETED key has its batch in the log, a FAILED one exactly when only the closing update threw |
| RollingStatus.CompletedMeansCommitted | packages/api/src/optimizer/rolling-service.ts:170-215 | However epochs, failures and crashes interleave, a claim is COMPLETED if and only if some call committed under its key, and then the key's batch is in the log |
| RollingStatus.EveryBatchIsAFirstTry | packages/api/src/optimizer/rolling-service.ts:280-323 | Every batch in the log is the generated and accepted plan, with its supersession if any, of the first call that tried its key |
| RollingStatus.MemoryHoldsTheLatest | packages/api/src/optimizer/rolling-service.ts:164-223 | What a reader is shown is the last result since the latest restart of the calls that did not throw, and the last such with recommendations |
| RollingService.RollingOptimizerService.RunOnce | packages/api/src/optimizer/rolling-service.ts:164-215 | One epoch against the tables: outcome, claim status, batch and memory for every fate of the append and the claim update |
| GeoTrackLaws.LiveIsRebuiltIff | packages/projections/src/runner/catchup.ts:248-327 | Over any passes, each seeing any prefix of the log and dying after any write, the tables once caught up equal those of a rebuild if and only if no arrival keyframe was lost by a pass that died between dropping the leg and writing it, and not written since |
| GeoTrackLaws.LiveFollows | packages/projections/src/runner/catchup.ts:248-282 | After any passes the tables are those of a rebuild of the checkpointed prefix but for exactly the keyframes lost, or one event half folded on the way there |
| GeoTrackLaws.LastPassCatchesUp | packages/projections/src/runner/catchup.ts:248-282 | Whatever passes came before, one that lives through the whole log leaves the checkpoint at its end |
| GeoTrackLaws.NothingLost | packages/projections/src/runner/catchup.ts:256-280 | Passes that die anywhere but right after an index write lose nothing |
| GeoTrackLaws.RefoldIsFoldIff | packages/projections/src/runner/catchup.ts:271-280 | Dying right after an event's index write is made good by the next pass if and only if the event is not the arrival of a trip in flight on a known route whose keyframe is not yet there |
| GeoTrackLaws.ALostArrival | packages/projections/src/runner/catchup.ts:271-277 | Route, departure, arrival, and a pass that dies after dropping the leg: the arrival keyframe is missing after every further sequence of passes, and a rebuild has it |
| GeoFrames.RebuiltShowsTheLog | packages/projections/src/reducers/geo-track.ts:115-330 | The keyframes of a rebuild are exactly those the log calls for: a departure at the start of its route's geometry, an arrival at its end, a stop half way, or at the start if it is not later than the departure; each from the routes and departures logged before it, a later one replacing an earlier one of its key |
| GeoTrack.GeoTracker.RunGeoTrack | packages/projections/src/runner/catchup.ts:248-282 | The pass, with its state loaded once and carried in memory, leaves the tables as the event-by-event specification does, cut off wherever the process dies, and counts the events folded |
| GeoTrack.GeoTracker.Rebuild | packages/projections/src/runner/catchup.ts:310-327 | Truncating and replaying leaves exactly the fold of the whole log |
| NextFit.GreedyIsOptimal | packages/load-planner/src/plan-load.ts:146-175 | Any cut of a list into consecutive runs that fit has at least as many runs as the greedy loop opens |
| NextFit.RunsAreACut | packages/load-planner/src/plan-load.ts:105-115 | The greedy runs all fit if and only if every single element fits alone |
| NextFit.RunsAreHalfFull | packages/load-planner/src/plan-load.ts:146-175 | For k greedy runs, floor(k/2) is at most total volume and weight measured in capacities |
| LoadPlanner.PlanLoad | packages/load-planner/src/plan-load.ts:135-207 | Throws exactly on a malformed stop; otherwise fills slices over the blocks in reverse unload order and numbers them from the rear |
| LoadPlanner.BaselinePlan | packages/load-planner/src/baseline.ts:74-144 | The same loop over the blocks in arrival order |
| LoadPlanner.BuildUnloadOrderMap | packages/load-planner/src/unload-order.ts:31-57 | Throws exactly on a malformed stop; otherwise the dense numbering of hubs in stop order |
| LoadLaws.FillIsGreedy | packages/load-planner/src/plan-load.ts:157-177 | The mutable slice builders end up holding exactly the greedy runs |
| LoadLaws.EveryBlockInOneSlice | packages/load-planner/src/plan-load.ts:157-200 | Read from the nose the slices partition the ordered blocks, each slice carrying the sums of its own blocks, its depth and the configured capacities |
| LoadLaws.PlannersPermute | packages/load-planner/src/plan-load.ts:117-133 | Neither planner's ordering adds or drops a block |
| LoadLaws.SlicesAreFewest | packages/load-planner/src/plan-load.ts:146-191 | No cut of the planner's sequence into runs that fit uses fewer slices |
| LoadLaws.SlicesAreHalfFull | packages/load-planner/src/plan-load.ts:146-191 | floor(k/2) <= V/capV + W/capW for the k slices of either planner |
| LoadLaws.PlanIsLifo | packages/load-planner/src/lifo-invariant.ts:84-105 | The planner's layout keeps the pairwise LIFO invariant for every route and every block set whose repeated ids share a hub |
| PlacementLaws.PlacedInOrder | packages/load-planner/src/plan-load.ts:140-156 | The planner places the freight of later stops first, by id within a stop; the baseline places by id alone |
| PlacementLaws.OnePlacementPerId | packages/load-planner/src/plan-load.ts:193-200 | Either planner lists one placement for every id, in id order, at the slice nearest the door that holds the id and with the unload order of the last block that carries it |
| PlacementLaws.ListedPlanIsLifo | packages/load-planner/src/lifo-invariant.ts:107-114 | The placements the planner lists keep the pairwise LIFO invariant, for every route and block set whose repeated ids share a hub |
| PlacementLaws.FirstReachedNearestDoor | packages/load-planner/src/plan-load.ts:135-200 | In the planner's layout freight for a hub the trailer reaches first stands no further from the door than freight for a hub it reaches later or never, for every route and block set whose repeated ids share a hub |
| LoadValidator.CountBlockers | packages/load-planner/src/lifo-invariant.ts:62-73 | The counting loop equals the pairwise count |
| LoadValidator.CanonicalInvariantHolds | packages/load-planner/src/lifo-invariant.ts:90-105 | The early-exit loops decide the pairwise LIFO invariant in both directions |
| LoadValidator.PlacementsFromSlices | packages/load-planner/src/validator.ts:48-68 | Exactly the known blocks of the slices, in order, with their hub's unload order; unknown ids are skipped |
| LoadValidator.ValidatePlan | packages/load-planner/src/validator.ts:80-122 | Throws exactly on a malformed stop; otherwise both violation lists for any layout, hard above the allowed blockers and soft otherwise |
| LoadValidator.RehandleScore | packages/load-planner/src/scoring.ts:60-131 | Throws exactly on a malformed stop; otherwise the sum of the ranked rehandle costs, which is the price of the unload (`RehandleLaws.ScoreIsTheUnload`) |
| UnloadLaws.ValidatorCountsTheUnload | packages/load-planner/src/validator.ts:23-27 | For any layout, a stop-by-stop unload takes every block off once and finds in front of each exactly the pairwise blocker count |
| UnloadLaws.NoViolationsMeansLifo | packages/load-planner/src/validator.ts:80-122 | Both violation lists are empty if and only if the pairwise LIFO invariant holds |
| UnloadLaws.FeasibleMeansBounded | packages/load-planner/src/validator.ts:130-132 | Feasible if and only if no block has more blockers than allowed |
| UnloadLaws.PlanLoadIsAccessible | packages/load-planner/src/plan-load.ts:146-200 | On the planner's own output both violation lists are empty and the rehandle score is zero, for every route and block set whose repeated ids share a hub |
| RehandleLaws.ScoreIsTheUnload | packages/load-planner/src/scoring.ts:60-131 | For any layout the rehandle score is the price of the stop-by-stop unload: minutes for each block moved out of another's way, cost for the volume so moved, and the flat penalties once per block that had something in its way, the fragile one once per fragile such block |
| RehandleLaws.ZeroScoreIff | packages/load-planner/src/scoring.ts:60-131 | With no negative volume the score is zero if and only if the validator finds no violation of either severity |
| UnloadLaws.LowerOrderMeansReachedFirst | packages/load-planner/src/unload-order.ts:31-57 | A hub has the lower unload order if and only if some stop of it comes before every stop of the other |
| UnloadLaws.NumberIsDense | packages/load-planner/src/unload-order.ts:49-55 | Unload orders are 0..n-1, one per hub on the route, none shared |
| AggregationLaws.AggregateIgnoresOrder | packages/aggregation/src/aggregate.ts:28-59 | Any reordering of repeat-free input gives the same list of blocks |
| AggregationLaws.BlockIdsAscend | packages/aggregation/src/aggregate.ts:49-59 | Block ids are distinct and strictly ascending |
| AggregationLaws.GroupedByKey | packages/aggregation/src/aggregate.ts:36-45 | The insertion-ordered group map holds, per key, exactly the packages with that key in input order |
| AggregationTotals.EveryPackageOnce | packages/aggregation/src/aggregate.ts:28-59 | Every package id occurs in the blocks exactly as often as in the input, and total volume and weight are conserved |
| AggregationTotals.SplitAccounts | packages/aggregation/src/split.ts:32-82 | Splitting a block loses and doubles nothing, whichever split applies |
| AggregationTotals.BlocksShareOneKey | packages/aggregation/src/aggregate.ts:66-76 | Every member of a block has the block's seven key parts; a block is within the volume cap or is a single package |
| AggregationTotals.BinsAreFewest | packages/aggregation/src/split.ts:136-154 | The volume splitter opens the fewest bins among all cuts of its sequence that fit |
| AggregationSplits.SplitIsIdempotentIff | packages/aggregation/src/split.ts:20-63 | Splitting every part again changes nothing if and only if no package is over the cap but, where fragile and heavy do not meet, the first in id order: the exact limit of the idempotence the source claims |
| AggregationSplits.AnOversizedSecondKeepsSplitting | packages/aggregation/src/split.ts:20-63 | A block of two packages, the second in id order over the cap: splitting its parts again changes them |
| AggregationSplits.SplitBlocksAreSafe | packages/aggregation/src/split.ts:114-126 | No part mixes fragile with heavy, and each is within the cap or a single package |
| Aggregation.GreedyVolumeBins | packages/aggregation/src/split.ts:136-154 | The bin loop equals its specification, empty input giving no bin |
| Aggregation.Aggregate | packages/aggregation/src/aggregate.ts:28-59 | The group-map loop and the final sort equal the specification the laws speak of |
| BlockIds.BlockIdIsInjective | packages/aggregation/src/block.ts:34-36 | Two block ids are the same text if and only if key and suffix are the same, JSON escaping included |
| AggregationOrders.BucketIsAWindow | packages/aggregation/src/deadline-bucket.ts:20-45 | A bucket is one window of one, four, twelve or twenty-four hours, by class |
| AggregationOrders.MembersBelong | packages/aggregation/src/aggregate.ts:28-76 | Every package a block lists has the block's three hubs and its three classes, and its deadline lies in the block's window |
| AggregationOrders.SharedKeyMeansCloseDeadlines | packages/aggregation/src/aggregate.ts:66-76 | Packages of one key share hubs and classes and their deadlines are less than a window apart |
| AggregationOrders.PriorityIsLexicographic | packages/aggregation/src/priority.ts:54-67 | One block outranks another if and only if its class is more urgent, or the classes are equal and its deadline is the earlier one, short of the horizon |
| AggregationOrders.BlockRanksByItsEarliest | packages/aggregation/src/block.ts:47-68 | A block counts and lists its members and takes the rank of the earliest deadline among them |
| Pacing.AdvanceIsBounded | packages/api/src/sim/pacing.ts:43-60 | A frame never moves the clock back, nor further than one clamped second at its speed; paused or stalled it does not move |
| Pacing.AdvanceIsProportional | packages/api/src/sim/pacing.ts:43-60 | Within the clamp the clock moves in proportion to the wall time and to the multiplier, one tick for the default interval |
| LiveDelivery.LiveSpeed | packages/api/src/sim/driver.ts:711-804 | At speed one half a second is a minute of the simulation; a frame counts for one second at most, and for nothing while paused |
| Pacing.SelectDrain | packages/api/src/sim/pacing.ts:89-106 | The longest due run within the budget, and a clamp to the last drained tick exactly when due ticks are left behind |
| Pacing.DrainKeepsStep | packages/api/src/sim/pacing.ts:89-106 | After any drain, exactly the drained ticks are due at the clamped clock, which has not moved back |
| Coalescing.CoalescedRunner.Trigger | packages/api/src/sim/coalesced-runner.ts:74-84 | Starts a job when idle, else adds to the one pending batch; never two in flight, nothing lost or reordered |
| Coalescing.CoalescedRunner.OnSettle | packages/api/src/sim/coalesced-runner.ts:60-72 | One follow-up job carrying exactly what gathered, in order, or idle with the waiters released |
| Coalescing.CoalescedRunner.WhenIdle | packages/api/src/sim/coalesced-runner.ts:85-90 | Resolves at once if and only if idle, and then everything triggered has been handed over |
| LiveDelivery.IntoTicks | packages/api/src/sim/driver.ts:371-382 | The grouping loop equals its specification |
| LiveDelivery.TicksAreTheStream | packages/api/src/sim/driver.ts:371-382 | The ticks concatenate to the stream and each holds events of one instant |
| LiveDelivery.SimulatedTicksAscend | packages/api/src/sim/driver.ts:584-630 | What the simulator emits from any seed to any horizon groups into strictly ascending ticks |
| LiveDelivery.PacedDriver.DrainFrame | packages/api/src/sim/driver.ts:727-759 | Appends the next ticks in order and hands the pending batch over at the landmark, including the last tick |
| LiveDelivery.PacedDriver.RunFrame | packages/api/src/sim/driver.ts:762-801 | One frame: clock and index never go back, the budget holds, exactly the drained ticks are due, one broadcast |
| LiveDelivery.DriveSimulationPaced | packages/api/src/sim/driver.ts:711-804 | Over any frames, pauses, speeds and optimizer settlements, exactly the due ticks have been appended, once and in order; if the run ends, the batches handed over concatenate to the whole stream; and it ends given enough frames that advance the clock and a job that settles |
| Envelope.DiffTick | packages/api/src/ws/envelope.ts:344-448 | The loops over the maps build exactly the delta |
| EnvelopeLaws.PatchRebuilds | packages/api/src/ws/envelope.ts:344-448 | A picture that agrees with prev, patched, agrees with next, whatever else it has accumulated |
| EnvelopeLaws.PatchIsExactIff | packages/api/src/ws/envelope.ts:390-412 | Trailers, stops and open exceptions are always rebuilt; hubs and routes if and only if no id disappears |
| EnvelopeLaws.VanishedHubsAndRoutesLinger | packages/api/src/ws/envelope.ts:390-412 | A hub and a route of the previous payload that the next one lacks are still on the client after the patch |
| EnvelopeLaws.OnlyChangesAreSent | packages/api/src/ws/envelope.ts:307-342 | An entity is sent only if it changed or is new, and withdrawn only if it is gone |
| EnvelopeLaws.DeltaIsInIdOrder | packages/api/src/ws/envelope.ts:344-448 | Every list of a delta is in id order |
| EnvelopeLaws.ShownAlikeIff | packages/api/src/ws/envelope.ts:307-342 | Two states of a hub are told apart if and only if a bucket differs or a count does, an absent count reading as zero |
| SnapshotChannel.SnapshotSocket.SendSnapshot | packages/api/src/ws/snapshots.ts:789-810 | A snapshot takes the next number and becomes the baseline of all |
| SnapshotChannel.SnapshotSocket.Broadcast | packages/api/src/ws/snapshots.ts:853-892 | A tick takes the next number, carries the delta against the baseline, and moves the baseline |
| SnapshotChannel.NoGapMeansCurrent | packages/api/src/ws/snapshots.ts:751-892 | Over any connects, resyncs, broadcasts and lost sends, a client that saw no gap since its snapshot agrees with the payload of the last message it received |
| SnapshotChannel.SnapshotHeals | packages/api/src/ws/snapshots.ts:789-810 | A snapshot that gets through makes its client current again, without a gap, whatever it had missed, and changes no other client |
| SnapshotChannel.MissedNumbersShowAsGap | packages/api/src/ws/snapshots.ts:789-892 | After any run of events that passes a client by, its next tick shows a gap if and only if it had one, was already behind, or some number was taken meanwhile: another's snapshot, a tick it did not get |
| FusionLaws.FusedBeliefIsTempered | packages/sensor-fusion/src/fuse.ts:69-112 | After any number of observations the posterior sums to one, every zone stays between floor/3 and 1 - 2*floor/3, and confidence is at least 1/3 |
| FusionLaws.ConfidenceBelowOneIff | packages/sensor-fusion/src/fuse.ts:69-112 | With a positive entropy floor the confidence is below one if and only if there is an observation or the prior was not already certain |
| FusionLaws.ACertainPriorStaysCertain | packages/sensor-fusion/src/fuse.ts:69-112 | A certain prior and no observations: confidence one |
| FusionLaws.DefaultConfidenceIsBounded | packages/sensor-fusion/src/config.ts:149-184 | Under the default configuration no zone ever exceeds 0.966, however many reads are fused |
| FusionLaws.LikelihoodIsMonotone | packages/sensor-fusion/src/likelihood.ts:28-55 | The likelihood stays between its bounds and never falls as the signal strengthens |
| Fusion.FuseZone | packages/sensor-fusion/src/fuse.ts:69-112 | The observation loop yields the recursive posterior, its likeliest zone and confidence, the last observation's trailer and the latest instant; that evidence favours its own zone is `FusionEvidence.EvidenceFavoursItsZone` |
| Fusion.ArgmaxZone | packages/sensor-fusion/src/fuse.ts:215-222 | The likeliest zone, the rearmost of equals |
| FusionEvidence.EvidenceFavoursItsZone | packages/sensor-fusion/src/fuse.ts:131-165 | Over any prediction a mapped read leaves its own zone no less likely if and only if its matched likelihood is at least a third or the zone was impossible or certain, and more likely if and only if it is above a third and the zone was neither |
| FusionEvidence.OthersKeepTheirRatio | packages/sensor-fusion/src/fuse.ts:161-164 | The two zones a read is not evidence for keep their ratio |
| FusionEvidence.UnmappedReaderMovesNothing | packages/sensor-fusion/src/fuse.ts:156-159 | A read of an unmapped reader leaves the prediction as it was |
| FusionEvidence.CertaintyFollowsItsRow | packages/sensor-fusion/src/fuse.ts:174-188 | A package known to be in a zone is, one step later, where that zone's row of the transition matrix says |
| FusionEvidence.MatchedIsMonotone | packages/sensor-fusion/src/fuse.ts:141-154 | The matched likelihood never falls with a stronger signal or more reads |
| FusionEvidence.NoScaleMeansTheTop | packages/sensor-fusion/src/likelihood.ts:28-55 | A scale without width counts every read as at its top: signal with the ceiling not above the floor, reads with no positive saturation |
| FusionEvidence.FirstReadDecidesIff | packages/sensor-fusion/src/fuse.ts:69-112 | From the uniform prior under the default configuration one read of a reader mapped to a zone makes that zone the estimate if and only if its matched likelihood passes that zone's threshold, whichever the zone |
| FusionEvidence.AFullReadDecides | packages/sensor-fusion/src/config.ts:149-184 | A dock-portal read at the signal ceiling decides for its reader's zone, whichever it is |

## Left out

- FlowDecomposition.AssignFreight: the min-cost-flow solver is not modelled; its answer enters as a value with the contract of `packages/optimizer/src/flow/types.ts:22-45`.
- Engine.SimEngine.DrainTo: the open-ended path (`runUntilStopped`, `stop`, `onEvent`) is not modelled; a run is to a horizon.
- Engine.SimEngine.ArriveTrailer: reader payloads, log-normal sampling and great-circle distances are arbitrary functions of the word drawn, kept to the clamps of the source.
- Resumable.Run: a continuation is a value; the order in which maps are listed in its serialized form and the key order of clocks are not modelled, and the world is one record field of the engine rather than one field per map.
- SimDrivers.RelayedDriversRest: the weekly cap over a driver's whole career is not claimed, because a relay gives the incoming driver a fresh weekly count and the keep-driver test ignores it; it is proved for one leg by `HosLaws.EngineLogIsLegal`.
- SimTimeline.OnePendingTaskEach: a trailer's physical position is not claimed, because the next departure from the center does not wait for the return arrival.
- HosLaws.EngineLogIsLegal: the sleeper-berth split is not modelled, and rests are not claimed to be as few as possible.
- SimStarts.StreamsStartApart: that the seed finaliser is injective is a premise, and not proved of `Rng.MixSeed`.
- EventStore.EventStore.AppendWithRetry: the class is one writer alone; the retries of competing writers are in `EventLogLaws`.
- EventLogLaws.ReadersFoldInOrder: a read model is the list of rows upserted, which is all the audit timeline needs; the state the geo-track reducer carries between events is in `GeoTrackLaws`. Two passes of one projection at the same time are not modelled.
- EventLogLaws.PruningIsInvisible: covers the two catch-up projections; other readers of the full log are not protected by the watermark.
- RollingService.RollingOptimizerService.RunOnce: the epoch evaluation is an input, with its outcome and the fate of the database calls as parameters.
- GeoTrack.GeoTracker.RunGeoTrack: the point half way along a leg is an arbitrary function of its geometry (great-circle lengths are not modelled), and a leg key is the pair of hub ids, which the source joins by `->`.
- LoadValidator.RehandleScore: the utilization score and the weighted total are simple quotients and are not modelled.
- LoadValidator.ValidatePlan: violation messages are left out; a violation is the block and its blockers.
- AggregationLaws.AggregateIgnoresOrder: sums are exact reals, not floats; text order is by character code, and `Array.sort` is a stable insertion sort.
- LiveDelivery.DriveSimulationPaced: broadcast payloads, induction and delivery notices, the detectors and the open-ended driver are not modelled; the runner settles by resolving or rejecting, never by throwing at once.
- EnvelopeLaws.PatchRebuilds: the indicator deltas are not modelled; the client is taken to upsert by id.
- SnapshotChannel.NoGapMeansCurrent: building a payload, moving the baseline, taking a number and sending are one step; a full send buffer is a message not received.
- FusionLaws.DefaultConfidenceIsBounded: arithmetic is over reals, so rounding is not part of the bound.
- ISO instants are whole minutes; parsing and formatting are not modelled.
- SQL, HTTP, websockets, worker threads, schemas and the user interface are not part of this model.
- Scenario injection, speed control, detector thresholds and rationale text would only add easy members.
