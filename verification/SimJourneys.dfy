/**
 * What the event log shows about each package, one firing at a time: it is unloaded only where it
 * belongs, at its destination or at the center, and delivered at most once, at the destination,
 * strictly after it arrived there. Every stage of every handler keeps log, manifests and queue in
 * step; `SimTimeline` draws the conclusion for whole runs.
 */
module SimJourneys {
  import opened Generators
  import opened SimTypes
  import opened EventQueues
  import opened Simulation
  import opened SimRuns
  import opened SimFreight
  import opened SimBooks
  import opened SimChunks

  // ----- Reading the log ---------------------------------------------------------------------

  predicate Announces(e: DomainEvent) { e.PackageCreated? || e.PackageInducted? }

  predicate Names(e: DomainEvent, p: PackageId, h: Hub) { Announces(e) && e.package == p && e.dest == h }

  /** How often the log brings `p` into being. */
  function NamedIn(log: seq<SimEvent>, p: PackageId): nat {
    if log == [] then 0
    else
      var last := log[|log| - 1].event;
      NamedIn(log[..|log| - 1], p) + One(Announces(last) && last.package == p)
  }

  predicate InUse(w: World, p: PackageId) {
    match p
    case Created(n) => 1 <= n <= w.packageCounter
    case External(n) => 1 <= n <= w.inductionCounter
  }

  /** Every id handed out was named once, and no other. */
  ghost predicate NamesKept(log: seq<SimEvent>, w: World) {
    forall p :: NamedIn(log, p) == One(InUse(w, p))
  }

  /** The log says that `p` is bound for `h`. */
  ghost predicate BoundFor(log: seq<SimEvent>, p: PackageId, h: Hub) {
    exists i :: 0 <= i < |log| && Names(log[i].event, p, h)
  }

  predicate Inducts(e: DomainEvent, p: PackageId, h: Hub) { e.PackageInducted? && e.package == p && e.inductionHub == h }

  ghost predicate InductedAt(log: seq<SimEvent>, p: PackageId, h: Hub) {
    exists i :: 0 <= i < |log| && Inducts(log[i].event, p, h)
  }

  predicate Takes(e: DomainEvent, p: PackageId, h: Hub) { e.TrailerDeparted? && e.to == h && p in e.packages }

  /** Some trailer left for `h` with `p` aboard. */
  ghost predicate Rode(log: seq<SimEvent>, p: PackageId, h: Hub) {
    exists i :: 0 <= i < |log| && Takes(log[i].event, p, h)
  }

  /** That trailer was `t`. */
  ghost predicate RodeWith(log: seq<SimEvent>, t: TrailerId, p: PackageId, h: Hub) {
    exists i :: 0 <= i < |log| && Takes(log[i].event, p, h) && log[i].event.trailer == t
  }

  /** The log shows `p` arriving at `h` strictly before `tick`. */
  ghost predicate ArrivedBefore(log: seq<SimEvent>, p: PackageId, h: Hub, tick: int) {
    exists i :: 0 <= i < |log| && log[i].event == PackageArrivedAtHub(p, h) && log[i].at < tick
  }

  ghost predicate AllBoundFor(log: seq<SimEvent>, packages: seq<PackageId>, h: Hub) {
    forall p :: p in packages ==> BoundFor(log, p, h)
  }

  ghost predicate AllInductedAt(log: seq<SimEvent>, packages: seq<PackageId>, h: Hub) {
    forall p :: p in packages ==> InductedAt(log, p, h)
  }

  ghost predicate AllRode(log: seq<SimEvent>, packages: seq<PackageId>, h: Hub) {
    forall p :: p in packages ==> Rode(log, p, h)
  }

  /** Trailer `t` brought these packages to the spoke they are bound for. */
  ghost predicate Aboard(log: seq<SimEvent>, t: TrailerId, packages: seq<PackageId>, h: Hub) {
    AllBoundFor(log, packages, h) && forall p :: p in packages ==> RodeWith(log, t, p, h)
  }

  /** A package comes off where a trailer took it, and at a spoke only if it is bound for that spoke. */
  ghost predicate MayComeOff(log: seq<SimEvent>, p: PackageId, h: Hub) {
    Rode(log, p, h) && (h != Center ==> BoundFor(log, p, h))
  }

  /**
   * A trailer takes to a spoke only what is bound there. To the center it takes either packages that
   * were inducted at the hub it leaves, or the one package it has itself just brought to its
   * destination and held back.
   */
  ghost predicate MayLeave(log: seq<SimEvent>, t: TrailerId, from: Hub, to: Hub, packages: seq<PackageId>) {
    if to != Center then AllBoundFor(log, packages, to)
    else AllInductedAt(log, packages, from) || (|packages| == 1 && Aboard(log, t, packages, from))
  }

  /** What justifies an event: departures, unloads and arrivals as above, deliveries where and after the package arrived. */
  ghost predicate Routed(before: seq<SimEvent>, e: SimEvent) {
    match e.event
    case PackageScanned(p, h, scan) => scan == Unload ==> MayComeOff(before, p, h)
    case PackageArrivedAtHub(p, h) => MayComeOff(before, p, h)
    case TrailerDeparted(t, from, to, _, packages) => MayLeave(before, t, from, to, packages)
    case PackageDelivered(p, h, deliveredAt, _) => BoundFor(before, p, h) && ArrivedBefore(before, p, h, e.at) && deliveredAt == e.at
    case _ => true
  }

  ghost predicate LogRouted(log: seq<SimEvent>) {
    forall i :: 0 <= i < |log| ==> Routed(log[..i], log[i])
  }

  ghost predicate TaskRouted(log: seq<SimEvent>, task: SimTask) {
    match task
    case DepartTrailer(_, spoke, _) => spoke != Center
    case ArriveTrailer(t, spoke, _, carried, _) => spoke != Center && Aboard(log, t, carried, spoke)
    case ArriveOverCarriedAtCenter(_, p, _) => Rode(log, p, Center)
    case ArriveConsolidationAtCenter(_, packages, _) => AllRode(log, packages, Center)
    case DeliverPackage(p, h, _, tick) => BoundFor(log, p, h) && ArrivedBefore(log, p, h, tick)
    case _ => true
  }

  ghost predicate FreightRouted(log: seq<SimEvent>, w: World) {
    && (forall h :: h in w.pendingBySpoke ==> AllBoundFor(log, w.pendingBySpoke[h], h))
    && (forall h :: h in w.pendingAtSpoke ==> AllInductedAt(log, w.pendingAtSpoke[h], h))
    && (forall p :: p in w.consolidationDest ==> BoundFor(log, p, w.consolidationDest[p]))
  }

  ghost predicate WorldRouted(log: seq<SimEvent>, w: World) { FreightRouted(log, w) && NamesKept(log, w) }

  ghost predicate SpawnedRouted(log: seq<SimEvent>, spawned: seq<Timed>) {
    forall i :: 0 <= i < |spawned| ==> TaskRouted(log, spawned[i].task)
  }

  /** The state half way through a handler that found the log `past`. */
  ghost predicate OnCourse(past: seq<SimEvent>, e: Effect) {
    && LogRouted(past + e.events)
    && WorldRouted(past + e.events, e.world)
    && SpawnedRouted(past + e.events, e.spawned)
  }

  // ----- Longer logs ----------------------------------------------------------------------------

  lemma BoundForGrows(log: seq<SimEvent>, more: seq<SimEvent>, p: PackageId, h: Hub)
    requires BoundFor(log, p, h)
    ensures BoundFor(log + more, p, h)
  {
    var i :| 0 <= i < |log| && Names(log[i].event, p, h);
    assert (log + more)[i] == log[i];
  }

  lemma ArrivedGrows(log: seq<SimEvent>, more: seq<SimEvent>, p: PackageId, h: Hub, tick: int)
    requires ArrivedBefore(log, p, h, tick)
    ensures ArrivedBefore(log + more, p, h, tick)
  {
    var i :| 0 <= i < |log| && log[i].event == PackageArrivedAtHub(p, h) && log[i].at < tick;
    assert (log + more)[i] == log[i];
  }

  lemma InductedGrows(log: seq<SimEvent>, more: seq<SimEvent>, p: PackageId, h: Hub)
    requires InductedAt(log, p, h)
    ensures InductedAt(log + more, p, h)
  {
    var i :| 0 <= i < |log| && Inducts(log[i].event, p, h);
    assert (log + more)[i] == log[i];
  }

  lemma RodeGrows(log: seq<SimEvent>, more: seq<SimEvent>, t: TrailerId, p: PackageId, h: Hub)
    ensures Rode(log, p, h) ==> Rode(log + more, p, h)
    ensures RodeWith(log, t, p, h) ==> RodeWith(log + more, t, p, h)
  {
    if Rode(log, p, h) {
      var i :| 0 <= i < |log| && Takes(log[i].event, p, h);
      assert (log + more)[i] == log[i];
    }
    if RodeWith(log, t, p, h) {
      var i :| 0 <= i < |log| && Takes(log[i].event, p, h) && log[i].event.trailer == t;
      assert (log + more)[i] == log[i];
    }
  }

  lemma AllBoundForGrows(log: seq<SimEvent>, more: seq<SimEvent>, packages: seq<PackageId>, h: Hub)
    requires AllBoundFor(log, packages, h)
    ensures AllBoundFor(log + more, packages, h)
  {
    forall p | p in packages ensures BoundFor(log + more, p, h) { BoundForGrows(log, more, p, h); }
  }

  lemma AllInductedGrows(log: seq<SimEvent>, more: seq<SimEvent>, packages: seq<PackageId>, h: Hub)
    requires AllInductedAt(log, packages, h)
    ensures AllInductedAt(log + more, packages, h)
  {
    forall p | p in packages ensures InductedAt(log + more, p, h) { InductedGrows(log, more, p, h); }
  }

  lemma AllRodeGrows(log: seq<SimEvent>, more: seq<SimEvent>, packages: seq<PackageId>, h: Hub)
    requires AllRode(log, packages, h)
    ensures AllRode(log + more, packages, h)
  {
    forall p | p in packages ensures Rode(log + more, p, h) { RodeGrows(log, more, 0, p, h); }
  }

  lemma AboardGrows(log: seq<SimEvent>, more: seq<SimEvent>, t: TrailerId, packages: seq<PackageId>, h: Hub)
    requires Aboard(log, t, packages, h)
    ensures Aboard(log + more, t, packages, h)
  {
    hide BoundFor, RodeWith;
    AllBoundForGrows(log, more, packages, h);
    forall p | p in packages ensures RodeWith(log + more, t, p, h) { RodeGrows(log, more, t, p, h); }
  }

  lemma TaskRoutedGrows(log: seq<SimEvent>, more: seq<SimEvent>, task: SimTask)
    requires TaskRouted(log, task)
    ensures TaskRouted(log + more, task)
  {
    hide BoundFor, ArrivedBefore, Aboard, AllRode, Rode;
    match task
    case ArriveTrailer(t, spoke, _, carried, _) => AboardGrows(log, more, t, carried, spoke);
    case ArriveOverCarriedAtCenter(t, p, _) => RodeGrows(log, more, t, p, Center);
    case ArriveConsolidationAtCenter(_, packages, _) => AllRodeGrows(log, more, packages, Center);
    case DeliverPackage(p, h, _, tick) => BoundForGrows(log, more, p, h); ArrivedGrows(log, more, p, h, tick);
    case _ =>
  }

  lemma {:induction false} NamedAppend(log: seq<SimEvent>, more: seq<SimEvent>, p: PackageId)
    ensures NamedIn(log + more, p) == NamedIn(log, p) + NamedIn(more, p)
  {
    if more == [] {
      assert log + more == log;
    } else {
      NamedAppend(log, more[..|more| - 1], p);
      assert (log + more)[..|log + more| - 1] == log + more[..|more| - 1];
    }
  }

  predicate NamesNothing(events: seq<SimEvent>) { forall i :: 0 <= i < |events| ==> !Announces(events[i].event) }

  lemma {:induction false} NamesNothingCounts(events: seq<SimEvent>, p: PackageId)
    requires NamesNothing(events)
    ensures NamedIn(events, p) == 0
  {
    if events != [] { NamesNothingCounts(events[..|events| - 1], p); }
  }

  lemma NamesKeptGrows(log: seq<SimEvent>, more: seq<SimEvent>, w: World)
    requires NamesKept(log, w) && NamesNothing(more)
    ensures NamesKept(log + more, w)
  {
    hide NamedIn, NamesNothing;
    forall p ensures NamedIn(log + more, p) == One(InUse(w, p)) {
      NamedAppend(log, more, p);
      NamesNothingCounts(more, p);
    }
  }

  lemma FreightRoutedGrows(log: seq<SimEvent>, more: seq<SimEvent>, w: World)
    requires FreightRouted(log, w)
    ensures FreightRouted(log + more, w)
  {
    hide BoundFor, AllBoundFor, AllInductedAt;
    forall h | h in w.pendingBySpoke ensures AllBoundFor(log + more, w.pendingBySpoke[h], h) {
      AllBoundForGrows(log, more, w.pendingBySpoke[h], h);
    }
    forall h | h in w.pendingAtSpoke ensures AllInductedAt(log + more, w.pendingAtSpoke[h], h) {
      AllInductedGrows(log, more, w.pendingAtSpoke[h], h);
    }
    forall p | p in w.consolidationDest ensures BoundFor(log + more, p, w.consolidationDest[p]) {
      BoundForGrows(log, more, p, w.consolidationDest[p]);
    }
  }

  lemma WorldRoutedGrows(log: seq<SimEvent>, more: seq<SimEvent>, w: World)
    requires WorldRouted(log, w) && NamesNothing(more)
    ensures WorldRouted(log + more, w)
  {
    hide FreightRouted, NamesKept, NamesNothing;
    NamesKeptGrows(log, more, w);
    FreightRoutedGrows(log, more, w);
  }

  lemma LogRoutedPush(log: seq<SimEvent>, e: SimEvent)
    requires LogRouted(log) && Routed(log, e)
    ensures LogRouted(log + [e])
  {
    hide Routed;
    var all := log + [e];
    forall i | 0 <= i < |all| ensures Routed(all[..i], all[i]) {
      if i < |log| { assert all[..i] == log[..i]; } else { assert all[..i] == log; }
    }
  }

  /** Events that need no justification and give none. */
  predicate Neutral(e: DomainEvent) {
    && !(e.PackageScanned? && e.scan == Unload)
    && !e.PackageArrivedAtHub? && !e.PackageDelivered? && !e.TrailerDeparted? && !Announces(e)
  }

  predicate AllNeutral(events: seq<SimEvent>) { forall i :: 0 <= i < |events| ==> Neutral(events[i].event) }

  lemma {:induction false} LogRoutedAppend(log: seq<SimEvent>, more: seq<SimEvent>)
    requires LogRouted(log) && AllNeutral(more)
    ensures LogRouted(log + more)
  {
    hide LogRouted;
    if more == [] {
      assert log + more == log;
    } else {
      var init, e := more[..|more| - 1], more[|more| - 1];
      LogRoutedAppend(log, init);
      LogRoutedPush(log + init, e);
      assert log + more == log + init + [e];
    }
  }

  lemma NeutralNamesNothing(events: seq<SimEvent>)
    requires AllNeutral(events)
    ensures NamesNothing(events)
  {
  }

  /** A longer log of neutral events keeps a handler on course. */
  lemma EmitNeutral(past: seq<SimEvent>, e: Effect, more: seq<SimEvent>)
    requires OnCourse(past, e) && AllNeutral(more)
    ensures OnCourse(past, e.Emit(more))
  {
    hide LogRouted, WorldRouted, TaskRouted, AllNeutral;
    var log := past + e.events;
    assert past + (e.events + more) == log + more;
    LogRoutedAppend(log, more);
    NeutralNamesNothing(more);
    WorldRoutedGrows(log, more, e.world);
    forall i | 0 <= i < |e.spawned| ensures TaskRouted(log + more, e.spawned[i].task) {
      TaskRoutedGrows(log, more, e.spawned[i].task);
    }
  }

  /** One justified event. */
  lemma EmitRouted(past: seq<SimEvent>, e: Effect, next: SimEvent)
    requires OnCourse(past, e) && Routed(past + e.events, next) && !Announces(next.event)
    ensures OnCourse(past, e.Emit([next]))
  {
    hide LogRouted, WorldRouted, TaskRouted, Routed;
    var log := past + e.events;
    assert past + (e.events + [next]) == log + [next];
    LogRoutedPush(log, next);
    WorldRoutedGrows(log, [next], e.world);
    forall i | 0 <= i < |e.spawned| ensures TaskRouted(log + [next], e.spawned[i].task) {
      TaskRoutedGrows(log, [next], e.spawned[i].task);
    }
  }

  lemma SpawnRouted(past: seq<SimEvent>, e: Effect, fireTick: int, task: SimTask)
    requires OnCourse(past, e) && TaskRouted(past + e.events, task)
    ensures OnCourse(past, e.Spawn(fireTick, task))
  {
    hide LogRouted, WorldRouted, TaskRouted;
  }

  /** An event that brings a new package into being. */
  lemma EmitAnnounced(past: seq<SimEvent>, e: Effect, w: World, next: SimEvent)
    requires OnCourse(past, e) && Announces(next.event) && !InUse(e.world, next.event.package)
    requires w.pendingBySpoke == e.world.pendingBySpoke && w.pendingAtSpoke == e.world.pendingAtSpoke
    requires w.consolidationDest == e.world.consolidationDest
    requires forall p :: InUse(w, p) <==> InUse(e.world, p) || p == next.event.package
    ensures OnCourse(past, e.(world := w).Emit([next]))
    ensures var log := past + (e.events + [next]);
      && BoundFor(log, next.event.package, next.event.dest)
      && (next.event.PackageInducted? ==> InductedAt(log, next.event.package, next.event.inductionHub))
  {
    hide LogRouted, TaskRouted, FreightRouted, InUse;
    var log := past + e.events;
    assert past + (e.events + [next]) == log + [next];
    LogRoutedPush(log, next);
    FreightRoutedGrows(log, [next], e.world);
    SameFreightRouted(log + [next], e.world, w);
    forall p ensures NamedIn(log + [next], p) == One(InUse(w, p)) {
      NamedAppend(log, [next], p);
      NamedOnce(next, p);
    }
    forall i | 0 <= i < |e.spawned| ensures TaskRouted(log + [next], e.spawned[i].task) {
      TaskRoutedGrows(log, [next], e.spawned[i].task);
    }
    assert (log + [next])[|log|] == next;
  }

  lemma NamedOnce(e: SimEvent, p: PackageId)
    ensures NamedIn([e], p) == One(Announces(e.event) && e.event.package == p)
  {
    assert [e][..0] == [];
  }

  lemma SameFreightRouted(log: seq<SimEvent>, w: World, w': World)
    requires FreightRouted(log, w)
    requires w'.pendingBySpoke == w.pendingBySpoke && w'.pendingAtSpoke == w.pendingAtSpoke
    requires w'.consolidationDest == w.consolidationDest
    ensures FreightRouted(log, w')
  {
  }

  /** A package put into the manifest of its own destination. */
  lemma PushRouted(log: seq<SimEvent>, w: World, h: Hub, p: PackageId)
    requires WorldRouted(log, w) && BoundFor(log, p, h)
    ensures WorldRouted(log, w.(pendingBySpoke := PushTo(w.pendingBySpoke, h, p)))
  {
    hide BoundFor, AllInductedAt, NamedIn;
    var m := PushTo(w.pendingBySpoke, h, p);
    forall g | g in m ensures AllBoundFor(log, m[g], g) {
      if g == h { assert forall q :: q in m[h] ==> q == p || (h in w.pendingBySpoke && q in w.pendingBySpoke[h]); }
    }
    assert forall q :: InUse(w.(pendingBySpoke := m), q) == InUse(w, q);
  }

  /** A package staged at the spoke it was inducted at, with its destination on record. */
  lemma StageRouted(log: seq<SimEvent>, w: World, h: Hub, p: PackageId, dest: Hub)
    requires WorldRouted(log, w) && InductedAt(log, p, h) && BoundFor(log, p, dest)
    ensures WorldRouted(log, w.(pendingAtSpoke := PushTo(w.pendingAtSpoke, h, p), consolidationDest := w.consolidationDest[p := dest]))
  {
    hide BoundFor, InductedAt, AllBoundFor, NamedIn;
    var m := PushTo(w.pendingAtSpoke, h, p);
    forall g | g in m ensures AllInductedAt(log, m[g], g) {
      if g == h { assert forall q :: q in m[h] ==> q == p || (h in w.pendingAtSpoke && q in w.pendingAtSpoke[h]); }
    }
    var w' := w.(pendingAtSpoke := m, consolidationDest := w.consolidationDest[p := dest]);
    assert forall q :: InUse(w', q) == InUse(w, q);
  }

  /** A stage that emits only neutral events and leaves freight and tasks alone. */
  ghost predicate Uneventful(e: Effect, r: Effect) {
    && SameFreight(e, r)
    && e.events <= r.events
    && AllNeutral(r.events[|e.events|..])
  }

  lemma UneventfulKeepsCourse(past: seq<SimEvent>, e: Effect, r: Effect)
    requires OnCourse(past, e) && Uneventful(e, r)
    ensures OnCourse(past, r)
  {
    hide LogRouted, TaskRouted, AllNeutral, BoundFor, AllBoundFor;
    var more := r.events[|e.events|..];
    assert r.events == e.events + more;
    EmitNeutral(past, e, more);
  }

  lemma UneventfulThen(e: Effect, m: Effect, r: Effect)
    requires Uneventful(e, m) && Uneventful(m, r)
    ensures Uneventful(e, r)
  {
    var more := r.events[|e.events|..];
    forall i | 0 <= i < |more| ensures Neutral(more[i].event) {
      if |e.events| + i < |m.events| {
        assert more[i] == m.events[|e.events|..][i];
      } else {
        assert more[i] == r.events[|m.events|..][|e.events| + i - |m.events|];
      }
    }
  }

  // ----- Stages ------------------------------------------------------------------------------------

  lemma RfidUneventful(env: Env, e: Effect, reader: ReaderType, t: TrailerId, hub: Hub, packages: seq<PackageId>, now: int)
    ensures Uneventful(e, RfidEffect(env, e, reader, t, hub, packages, now))
  {
  }

  lemma DispatchUneventful(env: Env, e: Effect, t: TrailerId, trip: TripId, transit: int, now: int)
    ensures Uneventful(e, Dispatch(env, e, t, trip, transit, now))
  {
    hide FirstFree, LegalMinutes, RemoveFirst, ClockOf;
    DispatchSameFreight(env, e, t, trip, transit, now);
  }

  lemma {:induction false} LegPausesNeutral(env: Env, w: Word, d: DriverId, log: seq<Hos.DutySegment>, clock: Hos.HosClock, now: int)
    ensures AllNeutral(LegPauses(env, w, d, log, clock, now).events)
  {
    if log != [] { LegPausesNeutral(env, w, d, log[..|log| - 1], clock, now); }
  }

  lemma DriveOutUneventful(env: Env, e: Effect, t: TrailerId, transit: nat, now: int)
    requires env.Ok()
    ensures Uneventful(e, DriveOut(env, e, t, transit, now).effect)
  {
    hide LegPauses;
    DriveOutSameFreight(env, e, t, transit, now);
    if env.hosOn {
      var d := DriverOf(e.world, t);
      var leg := Hos.DriveLeg(ClockOf(e.world, d), env.hosConfig, transit, now);
      LegPausesNeutral(env, e.rng.hos, d, leg.segments, leg.clock, now);
    }
  }

  lemma MakePackageOnCourse(env: Env, past: seq<SimEvent>, e: Effect, now: int)
    requires env.Ok() && OnCourse(past, e)
    ensures OnCourse(past, MakePackage(env, e, now))
  {
    var r := MakePackage(env, e, now);
    var n := |e.events|;
    var name, scan := r.events[n], r.events[n + 1];
    assert r.events == e.events + [name] + [scan];
    var counted := e.world.(packageCounter := e.world.packageCounter + 1);
    var p, dest := Created(e.world.packageCounter + 1), Spoke(Draw(env, e.rng.base, env.spokeCount));
    hide LogRouted, TaskRouted, FreightRouted, NamesKept, Draw, BoundFor, PushTo;
    EmitAnnounced(past, e, counted, name);
    var named := e.(world := counted).Emit([name]);
    EmitNeutral(past, named, [scan]);
    BoundForGrows(past + named.events, [scan], p, dest);
    assert past + named.events + [scan] == past + r.events;
    PushRouted(past + r.events, counted, dest, p);
  }

  lemma {:induction false} MakePackagesOnCourse(env: Env, past: seq<SimEvent>, e: Effect, count: nat, now: int)
    requires env.Ok() && OnCourse(past, e)
    ensures OnCourse(past, MakePackages(env, e, count, now))
  {
    hide OnCourse, MakePackage;
    if count > 0 {
      MakePackagesOnCourse(env, past, e, count - 1, now);
      MakePackageOnCourse(env, past, MakePackages(env, e, count - 1, now), now);
    }
  }

  lemma CreateBatchOnCourse(env: Env, past: seq<SimEvent>, e: Effect, tick: int, now: int)
    requires env.Ok() && OnCourse(past, e)
    ensures OnCourse(past, CreateBatch(env, e, tick, now))
  {
    hide MakePackages, LogRouted, WorldRouted, QuietWindow;
    var next := tick + PACKAGE_INTERVAL_TICKS;
    var (w', count) := BatchSize(env, e.rng.base);
    var drawn := e.(rng := e.rng.(base := w'));
    MakePackagesOnCourse(env, past, drawn, Hos.Max(0, count), now);
    SpawnRouted(past, e, next, CreatePackageBatch(next));
    SpawnRouted(past, MakePackages(env, drawn, Hos.Max(0, count), now), next, CreatePackageBatch(next));
  }

  lemma InductOnCourse(env: Env, past: seq<SimEvent>, e: Effect, tick: int, now: int)
    requires env.Ok() && OnCourse(past, e)
    ensures OnCourse(past, Induct(env, e, tick, now))
  {
    if env.inductionOn && e.rng.induction.Some? {
      var r := Induct(env, e, tick, now);
      var name := r.events[|e.events|];
      assert r.events == e.events + [name];
      var counted := e.world.(inductionCounter := e.world.inductionCounter + 1, slaDeadline := r.world.slaDeadline);
      var p, from, dest := name.event.package, name.event.inductionHub, name.event.dest;
      hide LogRouted, TaskRouted, FreightRouted, NamesKept, Draw, BoundFor, InductedAt, PushTo, OtherSpoke, SlaBuffer;
      EmitAnnounced(past, e, counted, name);
      if env.consolidationOn { StageRouted(past + r.events, counted, from, p, dest); }
    }
  }

  lemma LoadOnCourse(env: Env, past: seq<SimEvent>, e: Effect, t: TrailerId, spoke: Hub, now: int)
    requires OnCourse(past, e) && spoke != Center
    ensures var r := LoadAndLeave(env, e, t, spoke, now);
            && OnCourse(past, r)
            && Aboard(past + r.events, t, Manifest(e.world.pendingBySpoke, spoke), spoke)
  {
    var trip, loaded := e.world.tripCounter + 1, Manifest(e.world.pendingBySpoke, spoke);
    var taken := e.(world := e.world.(tripCounter := trip, pendingBySpoke := e.world.pendingBySpoke[spoke := []]));
    ManifestTaken(past, e, spoke, trip);
    var scans := LoadScans(loaded, Center, now) + PhaseEvents(env, LoadStarted, t, Center, trip, now);
    var departed := OnTrailer(t, TrailerDeparted(t, Center, spoke, trip, loaded), now);
    assert AllNeutral(scans);
    var r := LoadAndLeave(env, e, t, spoke, now);
    assert r.events == e.events + scans + [departed];
    hide OnCourse, AllNeutral, BoundFor, LoadScans, Manifest;
    EmitNeutral(past, taken, scans);
    AllBoundForGrows(past + e.events, scans, loaded, spoke);
    assert past + e.events + scans == past + (e.events + scans);
    EmitRouted(past, taken.Emit(scans), departed);
    AllBoundForGrows(past + (e.events + scans), [departed], loaded, spoke);
    var log := past + r.events;
    assert past + (e.events + scans) + [departed] == log;
    assert log[|log| - 1] == departed;
  }

  /** The manifest of a spoke is taken off the books; all in it is bound there. */
  lemma ManifestTaken(past: seq<SimEvent>, e: Effect, spoke: Hub, trip: TripId)
    requires OnCourse(past, e)
    ensures OnCourse(past, e.(world := e.world.(tripCounter := trip, pendingBySpoke := e.world.pendingBySpoke[spoke := []])))
    ensures AllBoundFor(past + e.events, Manifest(e.world.pendingBySpoke, spoke), spoke)
  {
    hide LogRouted, TaskRouted, BoundFor, AllInductedAt, NamedIn;
    var m := e.world.pendingBySpoke[spoke := []];
    forall h | h in m ensures AllBoundFor(past + e.events, m[h], h) {
      if h != spoke { assert h in e.world.pendingBySpoke; }
    }
    assert forall p :: InUse(e.world.(tripCounter := trip, pendingBySpoke := m), p) == InUse(e.world, p);
  }

  lemma RollOnCourse(env: Env, past: seq<SimEvent>, e: Effect, t: TrailerId, spoke: Hub, now: int)
    requires OnCourse(past, e) && spoke != Center
    ensures var r := Roll(env, e, t, spoke, now).0;
            && OnCourse(past, r)
            && Aboard(past + r.events, t, Manifest(e.world.pendingBySpoke, spoke), spoke)
  {
    hide OnCourse, Aboard, LoadAndLeave, DrawTransit;
    LoadOnCourse(env, past, e, t, spoke, now);
    SameButRng(past, LoadAndLeave(env, e, t, spoke, now), Roll(env, e, t, spoke, now).0.rng);
  }

  lemma DepartOnCourse(env: Env, past: seq<SimEvent>, e: Effect, t: TrailerId, spoke: Hub, departTick: int, now: int)
    requires env.Ok() && OnCourse(past, e) && spoke != Center
    ensures OnCourse(past, Depart(env, e, t, spoke, departTick, now))
  {
    hide Roll, Dispatch, RfidEffect, DriveOut, Underway, Manifest, OnCourse, Uneventful, Aboard;
    RollOnCourse(env, past, e, t, spoke, now);
    var (rolled, transit) := Roll(env, e, t, spoke, now);
    var trip, loaded := e.world.tripCounter + 1, Manifest(e.world.pendingBySpoke, spoke);
    var dispatched := Dispatch(env, rolled, t, trip, transit, now);
    var read := RfidEffect(env, dispatched, Portal, t, Center, loaded, now);
    var out := DriveOut(env, read, t, transit, now);
    DispatchUneventful(env, rolled, t, trip, transit, now);
    RfidUneventful(env, dispatched, Portal, t, Center, loaded, now);
    DriveOutUneventful(env, read, t, transit, now);
    UneventfulThen(rolled, dispatched, read);
    UneventfulThen(rolled, read, out.effect);
    UnderwayOnCourse(env, past, rolled, out, t, spoke, trip, loaded, transit, departTick, now);
  }

  lemma UnderwayOnCourse(env: Env, past: seq<SimEvent>, rolled: Effect, a: Accrual, t: TrailerId, spoke: Hub, trip: TripId,
                         loaded: seq<PackageId>, transit: nat, departTick: int, now: int)
    requires OnCourse(past, rolled) && Uneventful(rolled, a.effect)
    requires spoke != Center && Aboard(past + rolled.events, t, loaded, spoke)
    ensures OnCourse(past, Underway(env, a, t, spoke, trip, loaded, transit, departTick, now))
  {
    hide LogRouted, Aboard, AllNeutral, FreightRouted, NamedIn;
    UneventfulKeepsCourse(past, rolled, a.effect);
    AboardGrows(past + rolled.events, a.effect.events[|rolled.events|..], t, loaded, spoke);
    assert past + rolled.events + a.effect.events[|rolled.events|..] == past + a.effect.events;
    UnderwayMovesNothing(env, a, t, spoke, trip, loaded, transit, departTick, now);
    UnderwaySilent(env, a, t, spoke, trip, loaded, transit, departTick, now);
    hide Underway;
    var r := Underway(env, a, t, spoke, trip, loaded, transit, departTick, now);
    SameBooksRouted(past + a.effect.events, a.effect.world, r.world);
  }

  lemma SameBooksRouted(log: seq<SimEvent>, w: World, w': World)
    requires WorldRouted(log, w)
    requires w'.pendingBySpoke == w.pendingBySpoke && w'.pendingAtSpoke == w.pendingAtSpoke
    requires w'.consolidationDest == w.consolidationDest
    requires w'.packageCounter == w.packageCounter && w'.inductionCounter == w.inductionCounter
    ensures WorldRouted(log, w')
  {
    hide NamedIn, AllBoundFor, AllInductedAt, BoundFor;
    assert forall p :: InUse(w', p) == InUse(w, p);
  }

  lemma UnderwaySilent(env: Env, a: Accrual, t: TrailerId, spoke: Hub, trip: TripId, loaded: seq<PackageId>,
                       transit: nat, departTick: int, now: int)
    ensures Underway(env, a, t, spoke, trip, loaded, transit, departTick, now).events == a.effect.events
  {
    hide AccrueMiles;
  }

  lemma DockUneventful(env: Env, e: Effect, t: TrailerId, spoke: Hub, trip: TripId, carried: seq<PackageId>, now: int)
    ensures Uneventful(e, Dock(env, e, t, spoke, trip, carried, now))
  {
    hide RfidEffect;
    var announced := e.Emit(ArrivalEvents(t, spoke, trip, now) + PhaseEvents(env, UnloadStarted, t, spoke, trip, now));
    RfidUneventful(env, announced, Antenna, t, spoke, carried, now);
    assert announced.events[|e.events|..] == ArrivalEvents(t, spoke, trip, now) + PhaseEvents(env, UnloadStarted, t, spoke, trip, now);
    UneventfulThen(e, announced, RfidEffect(env, announced, Antenna, t, spoke, carried, now));
  }

  lemma MayComeOffGrows(log: seq<SimEvent>, more: seq<SimEvent>, p: PackageId, h: Hub)
    requires MayComeOff(log, p, h)
    ensures MayComeOff(log + more, p, h)
  {
    hide BoundFor, Rode;
    RodeGrows(log, more, 0, p, h);
    if h != Center { BoundForGrows(log, more, p, h); }
  }

  /** One unloading at a hub where it is allowed. */
  lemma UnloadEventsOnCourse(past: seq<SimEvent>, e: Effect, p: PackageId, hub: Hub, now: int)
    requires OnCourse(past, e) && MayComeOff(past + e.events, p, hub)
    ensures OnCourse(past, e.Emit(UnloadEvents(p, hub, now)))
    ensures forall tick :: tick > now ==> ArrivedBefore(past + e.Emit(UnloadEvents(p, hub, now)).events, p, hub, tick)
  {
    hide OnCourse, MayComeOff;
    var scan, arrived := UnloadEvents(p, hub, now)[0], UnloadEvents(p, hub, now)[1];
    EmitRouted(past, e, scan);
    var scanned := e.Emit([scan]);
    MayComeOffGrows(past + e.events, [scan], p, hub);
    assert past + e.events + [scan] == past + scanned.events;
    EmitRouted(past, scanned, arrived);
    assert e.Emit(UnloadEvents(p, hub, now)) == scanned.Emit([arrived]);
    var log := past + scanned.Emit([arrived]).events;
    assert log[|log| - 1] == arrived;
  }

  lemma UnloadOneOnCourse(env: Env, past: seq<SimEvent>, e: Effect, p: PackageId, spoke: Hub, now: int)
    requires OnCourse(past, e) && spoke != Center && MayComeOff(past + e.events, p, spoke)
    ensures OnCourse(past, UnloadOne(env, e, p, spoke, now, now))
  {
    UnloadEventsOnCourse(past, e, p, spoke, now);
    hide OnCourse, BoundFor, ArrivedBefore, UnloadEvents, Draw, Rode;
    BoundForGrows(past + e.events, UnloadEvents(p, spoke, now), p, spoke);
    var unloaded := e.Emit(UnloadEvents(p, spoke, now));
    assert past + e.events + UnloadEvents(p, spoke, now) == past + unloaded.events;
    if Delivers(env, e.rng) {
      var r := UnloadOne(env, e, p, spoke, now, now);
      var x := r.spawned[|e.spawned|];
      var drawn := unloaded.(rng := r.rng);
      assert OnCourse(past, drawn) by { SameButRng(past, unloaded, r.rng); }
      SpawnRouted(past, drawn, x.fireTick, x.task);
    }
  }

  lemma SameButRng(past: seq<SimEvent>, e: Effect, rng: RngStates)
    requires OnCourse(past, e)
    ensures OnCourse(past, e.(rng := rng))
  {
  }

  lemma AboardMayComeOff(log: seq<SimEvent>, t: TrailerId, packages: seq<PackageId>, spoke: Hub, p: PackageId)
    requires Aboard(log, t, packages, spoke) && p in packages
    ensures MayComeOff(log, p, spoke) && Aboard(log, t, [p], spoke)
  {
    hide BoundFor;
    assert RodeWith(log, t, p, spoke);
  }

  lemma {:induction false} UnloadAllOnCourse(
    env: Env, past: seq<SimEvent>, e: Effect, t: TrailerId, aboard: seq<PackageId>, carried: seq<PackageId>,
    held: Option<PackageId>, spoke: Hub, now: int)
    requires OnCourse(past, e) && spoke != Center && Aboard(past + e.events, t, aboard, spoke)
    requires forall p :: p in carried ==> p in aboard
    ensures var r := UnloadAll(env, e, carried, held, spoke, now, now);
            OnCourse(past, r) && e.events <= r.events
  {
    hide OnCourse, UnloadOne, Aboard, MayComeOff;
    if carried != [] {
      var init, p := carried[..|carried| - 1], carried[|carried| - 1];
      UnloadAllOnCourse(env, past, e, t, aboard, init, held, spoke, now);
      var before := UnloadAll(env, e, init, held, spoke, now, now);
      AboardMayComeOff(past + e.events, t, aboard, spoke, p);
      MayComeOffGrows(past + e.events, before.events[|e.events|..], p, spoke);
      assert past + e.events + before.events[|e.events|..] == past + before.events;
      UnloadOneOnCourse(env, past, before, p, spoke, now);
      UnloadOneEvents(env, before, p, spoke, now, now);
    }
  }

  lemma UnloadOneEvents(env: Env, e: Effect, p: PackageId, spoke: Hub, arriveTick: int, now: int)
    ensures UnloadOne(env, e, p, spoke, arriveTick, now).events == e.events + UnloadEvents(p, spoke, now)
  {
  }

  lemma UnloadPhaseOnCourse(env: Env, past: seq<SimEvent>, e: Effect, t: TrailerId, spoke: Hub, trip: TripId, carried: seq<PackageId>, now: int)
    requires OnCourse(past, e) && spoke != Center && Aboard(past + e.events, t, carried, spoke)
    ensures var (r, held) := UnloadPhase(env, e, t, spoke, trip, carried, now, now);
            && OnCourse(past, r) && e.events <= r.events
            && (held.Some? ==> Aboard(past + r.events, t, [held.value], spoke))
  {
    hide OnCourse, UnloadAll, Aboard, AllNeutral;
    var (drawn, held) := HoldBack(env, e, carried);
    SameButRng(past, e, drawn.rng);
    UnloadAllOnCourse(env, past, drawn, t, carried, carried, held, spoke, now);
    var unloaded := UnloadAll(env, drawn, carried, held, spoke, now, now);
    PhaseNeutral(env, t, spoke, trip, now);
    EmitNeutral(past, unloaded, PhaseEvents(env, UnloadCompleted, t, spoke, trip, now));
    if held.Some? {
      var r := UnloadPhase(env, e, t, spoke, trip, carried, now, now).0;
      AboardMayComeOff(past + e.events, t, carried, spoke, held.value);
      AboardGrows(past + e.events, r.events[|e.events|..], t, [held.value], spoke);
      assert past + e.events + r.events[|e.events|..] == past + r.events;
    }
  }

  lemma PhaseNeutral(env: Env, t: TrailerId, spoke: Hub, trip: TripId, now: int)
    ensures AllNeutral(PhaseEvents(env, UnloadCompleted, t, spoke, trip, now))
  {
  }

  /** A departure for the center, and where it leaves each package in the log. */
  lemma HeadBack(past: seq<SimEvent>, e: Effect, t: TrailerId, from: Hub, trip: TripId, packages: seq<PackageId>, now: int)
    requires OnCourse(past, e) && MayLeave(past + e.events, t, from, Center, packages)
    ensures var left := e.Emit([OnTrailer(t, TrailerDeparted(t, from, Center, trip, packages), now)]);
            OnCourse(past, left) && AllRode(past + left.events, packages, Center)
  {
    hide OnCourse, MayLeave;
    var departed := OnTrailer(t, TrailerDeparted(t, from, Center, trip, packages), now);
    EmitRouted(past, e, departed);
    var log := past + e.Emit([departed]).events;
    assert log[|log| - 1] == departed;
    forall p | p in packages ensures Rode(log, p, Center) { assert Takes(log[|log| - 1].event, p, Center); }
  }

  lemma RideOnOnCourse(env: Env, past: seq<SimEvent>, e: Effect, t: TrailerId, spoke: Hub, held: Option<PackageId>, arriveTick: int, now: int)
    requires OnCourse(past, e) && (held.Some? ==> Aboard(past + e.events, t, [held.value], spoke))
    ensures OnCourse(past, RideOn(env, e, t, spoke, held, arriveTick, now))
  {
    hide OnCourse, RfidEffect, DrawTransit, Aboard, AllInductedAt, Uneventful, Rode;
    if held.Some? {
      var p, trip := held.value, e.world.tripCounter + 1;
      NewTrip(past, e, trip);
      var counted := e.(world := e.world.(tripCounter := trip));
      HeadBack(past, counted, t, spoke, trip, [p], now);
      var left := counted.Emit([OnTrailer(t, TrailerDeparted(t, spoke, Center, trip, [p]), now)]);
      assert p in [p] && Rode(past + left.events, p, Center);
      RidesToCenter(env, past, left, t, spoke, [p], now);
      var read := RfidEffect(env, left, Portal, t, spoke, [p], now);
      var (timing, transit) := DrawTransit(env, read.rng.timing, spoke, Center);
      SpawnRouted(past, read.(rng := read.rng.(timing := timing)), arriveTick + transit, ArriveOverCarriedAtCenter(t, p, trip));
    }
  }

  /** Reading the trailer out and drawing its transit keeps the load on record as under way. */
  lemma RidesToCenter(env: Env, past: seq<SimEvent>, left: Effect, t: TrailerId, spoke: Hub, packages: seq<PackageId>, now: int)
    requires OnCourse(past, left) && AllRode(past + left.events, packages, Center)
    ensures var read := RfidEffect(env, left, Portal, t, spoke, packages, now);
            var (timing, transit) := DrawTransit(env, read.rng.timing, spoke, Center);
            && OnCourse(past, read.(rng := read.rng.(timing := timing)))
            && AllRode(past + read.events, packages, Center)
  {
    hide OnCourse, RfidEffect, DrawTransit, AllRode, AllNeutral;
    RfidUneventful(env, left, Portal, t, spoke, packages, now);
    var read := RfidEffect(env, left, Portal, t, spoke, packages, now);
    UneventfulKeepsCourse(past, left, read);
    AllRodeGrows(past + left.events, read.events[|left.events|..], packages, Center);
    assert past + left.events + read.events[|left.events|..] == past + read.events;
    var (timing, transit) := DrawTransit(env, read.rng.timing, spoke, Center);
    SameButRng(past, read, read.rng.(timing := timing));
  }

  lemma NewTrip(past: seq<SimEvent>, e: Effect, trip: TripId)
    requires OnCourse(past, e)
    ensures OnCourse(past, e.(world := e.world.(tripCounter := trip)))
  {
  }

  /** The staged manifest of a spoke is taken off the books; all in it was inducted there. */
  lemma StagingTaken(env: Env, past: seq<SimEvent>, e: Effect, spoke: Hub, trip: TripId)
    requires OnCourse(past, e)
    ensures OnCourse(past, e.(world := e.world.(tripCounter := trip, pendingAtSpoke := e.world.pendingAtSpoke[spoke := []])))
    ensures AllInductedAt(past + e.events, SortIds(env, Manifest(e.world.pendingAtSpoke, spoke)), spoke)
  {
    hide LogRouted, TaskRouted, BoundFor, AllBoundFor, InductedAt, NamedIn, SortIds;
    var staged := Manifest(e.world.pendingAtSpoke, spoke);
    SortIdsCount(env, staged);
    forall p | p in SortIds(env, staged) ensures p in staged {
      assert multiset(SortIds(env, staged))[p] > 0;
    }
    var m := e.world.pendingAtSpoke[spoke := []];
    forall h | h in m ensures AllInductedAt(past + e.events, m[h], h) {
      if h != spoke { assert h in e.world.pendingAtSpoke; }
    }
    assert forall p :: InUse(e.world.(tripCounter := trip, pendingAtSpoke := m), p) == InUse(e.world, p);
  }

  lemma ConsolidateOnCourse(env: Env, past: seq<SimEvent>, e: Effect, t: TrailerId, spoke: Hub, arriveTick: int, now: int)
    requires OnCourse(past, e)
    ensures OnCourse(past, Consolidate(env, e, t, spoke, arriveTick, now))
  {
    if env.consolidationOn {
      hide OnCourse, RfidEffect, DrawTransit, SortIds, AllInductedAt, AllRode, Aboard, AllNeutral;
      var consolidated := SortIds(env, Manifest(e.world.pendingAtSpoke, spoke));
      var trip := e.world.tripCounter + 1;
      StagingTaken(env, past, e, spoke, trip);
      var taken := e.(world := e.world.(tripCounter := trip, pendingAtSpoke := e.world.pendingAtSpoke[spoke := []]));
      var scans := LoadScans(consolidated, spoke, now);
      LoadScansNeutral(consolidated, spoke, now);
      hide LoadScans;
      EmitNeutral(past, taken, scans);
      AllInductedGrows(past + e.events, scans, consolidated, spoke);
      assert past + e.events + scans == past + (e.events + scans);
      HeadBack(past, taken.Emit(scans), t, spoke, trip, consolidated, now);
      var departed := OnTrailer(t, TrailerDeparted(t, spoke, Center, trip, consolidated), now);
      var left := taken.Emit(scans + [departed]);
      assert e.events + scans + [departed] == e.events + (scans + [departed]);
      RidesToCenter(env, past, left, t, spoke, consolidated, now);
      var read := RfidEffect(env, left, Portal, t, spoke, consolidated, now);
      var (timing, transit) := DrawTransit(env, read.rng.timing, spoke, Center);
      SpawnRouted(past, read.(rng := read.rng.(timing := timing)), arriveTick + transit,
                  ArriveConsolidationAtCenter(t, consolidated, trip));
    }
  }

  lemma LoadScansNeutral(packages: seq<PackageId>, hub: Hub, now: int)
    ensures AllNeutral(LoadScans(packages, hub, now))
  {
  }

  lemma TurnAroundOnCourse(env: Env, past: seq<SimEvent>, e: Effect, t: TrailerId, spoke: Hub, arriveTick: int)
    requires OnCourse(past, e) && spoke != Center
    ensures OnCourse(past, TurnAround(env, e, t, spoke, arriveTick))
  {
    hide OnCourse, DrawDwell;
    var r := TurnAround(env, e, t, spoke, arriveTick);
    var x := r.spawned[|e.spawned|];
    SameButRng(past, e, r.rng);
    SpawnRouted(past, e.(rng := r.rng), x.fireTick, x.task);
  }

  lemma ArriveOnCourse(env: Env, past: seq<SimEvent>, e: Effect, t: TrailerId, spoke: Hub, trip: TripId, carried: seq<PackageId>, now: int)
    requires OnCourse(past, e) && spoke != Center && Aboard(past + e.events, t, carried, spoke)
    ensures OnCourse(past, Arrive(env, e, t, spoke, trip, carried, now, now))
  {
    hide OnCourse, Aboard, Dock, UnloadPhase, RideOn, Consolidate, TurnAround, AllNeutral;
    DockUneventful(env, e, t, spoke, trip, carried, now);
    var docked := Dock(env, e, t, spoke, trip, carried, now);
    UneventfulKeepsCourse(past, e, docked);
    AboardGrows(past + e.events, docked.events[|e.events|..], t, carried, spoke);
    assert past + e.events + docked.events[|e.events|..] == past + docked.events;
    UnloadPhaseOnCourse(env, past, docked, t, spoke, trip, carried, now);
    var (unloaded, held) := UnloadPhase(env, docked, t, spoke, trip, carried, now, now);
    RideOnOnCourse(env, past, unloaded, t, spoke, held, now, now);
    var ridden := RideOn(env, unloaded, t, spoke, held, now, now);
    ConsolidateOnCourse(env, past, ridden, t, spoke, now, now);
    TurnAroundOnCourse(env, past, Consolidate(env, ridden, t, spoke, now, now), t, spoke, now);
  }

  lemma CrossDockOneOnCourse(past: seq<SimEvent>, e: Effect, p: PackageId, now: int)
    requires OnCourse(past, e) && Rode(past + e.events, p, Center)
    ensures OnCourse(past, CrossDockOne(e, p, now)) && e.events <= CrossDockOne(e, p, now).events
  {
    UnloadEventsOnCourse(past, e, p, Center, now);
    if p in e.world.consolidationDest {
      var unloaded := e.Emit(UnloadEvents(p, Center, now));
      var dest := e.world.consolidationDest[p];
      hide LogRouted, AllBoundFor, AllInductedAt, BoundFor, PushTo, TaskRouted, UnloadEvents, NamedIn, Rode;
      PushRouted(past + unloaded.events, e.world, dest, p);
      var pushed := e.world.(pendingBySpoke := PushTo(e.world.pendingBySpoke, dest, p));
      RecordDropped(past + unloaded.events, pushed, p);
    }
  }

  lemma RecordDropped(log: seq<SimEvent>, w: World, p: PackageId)
    requires WorldRouted(log, w)
    ensures WorldRouted(log, w.(consolidationDest := w.consolidationDest - {p}))
  {
    hide AllBoundFor, AllInductedAt, BoundFor, NamedIn;
    var m := w.consolidationDest - {p};
    assert forall q :: q in m ==> q in w.consolidationDest && m[q] == w.consolidationDest[q];
    assert forall q :: InUse(w.(consolidationDest := m), q) == InUse(w, q);
  }

  lemma {:induction false} CrossDockOnCourse(past: seq<SimEvent>, e: Effect, packages: seq<PackageId>, now: int)
    requires OnCourse(past, e) && AllRode(past + e.events, packages, Center)
    ensures OnCourse(past, CrossDock(e, packages, now)) && e.events <= CrossDock(e, packages, now).events
  {
    hide OnCourse, CrossDockOne, Rode;
    if packages != [] {
      var init, p := packages[..|packages| - 1], packages[|packages| - 1];
      CrossDockOnCourse(past, e, init, now);
      var before := CrossDock(e, init, now);
      assert p in packages;
      RodeGrows(past + e.events, before.events[|e.events|..], 0, p, Center);
      assert past + e.events + before.events[|e.events|..] == past + before.events;
      CrossDockOneOnCourse(past, before, p, now);
    }
  }

  lemma DeliverOnCourse(env: Env, past: seq<SimEvent>, e: Effect, p: PackageId, hub: Hub, deadline: Option<int>, now: int)
    requires OnCourse(past, e) && BoundFor(past + e.events, p, hub) && ArrivedBefore(past + e.events, p, hub, now)
    ensures OnCourse(past, Deliver(env, e, p, hub, deadline, now))
  {
    hide LogRouted, AllBoundFor, BoundFor, ArrivedBefore, TaskRouted;
    if Delivers(env, e.rng) {
      var r := Deliver(env, e, p, hub, deadline, now);
      EmitRouted(past, e, r.events[|e.events|]);
    }
  }

  /** Firing a routed task at its own tick keeps log, world and tasks routed. */
  lemma FireOnCourse(env: Env, past: seq<SimEvent>, rng: RngStates, w: World, task: SimTask, now: int)
    requires env.Ok() && OwnTick(task, now)
    requires LogRouted(past) && WorldRouted(past, w) && TaskRouted(past, task)
    ensures OnCourse(past, Fire(env, rng, w, task, now))
  {
    hide CreateBatch, Induct, Depart, Arrive, Deliver, CrossDock, LogRouted, WorldRouted, BoundFor, Aboard, AllRode, Rode, ArrivedBefore;
    var e := Effect(rng, w, [], []);
    assert past + [] == past;
    match task
    case CreatePackageBatch(tick) => CreateBatchOnCourse(env, past, e, tick, now);
    case InductPackage(tick) => InductOnCourse(env, past, e, tick, now);
    case DepartTrailer(t, spoke, departTick) => DepartOnCourse(env, past, e, t, spoke, departTick, now);
    case ArriveTrailer(t, spoke, trip, carried, arriveTick) => ArriveOnCourse(env, past, e, t, spoke, trip, carried, now);
    case MidLegStops(t, trip, rests, didRefuel, odometer) =>
      EmitNeutral(past, e, RestEvents(t, trip, rests, now) + if didRefuel then [RefuelEvent(env, t, trip, odometer, now)] else []);
    case ArriveOverCarriedAtCenter(t, p, trip) => OverCarriedOnCourse(past, e, t, p, trip, now);
    case ArriveConsolidationAtCenter(t, packages, trip) =>
      EmitNeutral(past, e, ArrivalEvents(t, Center, trip, now));
      AllRodeGrows(past, ArrivalEvents(t, Center, trip, now), packages, Center);
      assert past + ArrivalEvents(t, Center, trip, now) == past + e.Emit(ArrivalEvents(t, Center, trip, now)).events;
      CrossDockOnCourse(past, e.Emit(ArrivalEvents(t, Center, trip, now)), packages, now);
    case DeliverPackage(p, hub, deadline, _) => DeliverOnCourse(env, past, e, p, hub, deadline, now);
  }

  lemma OverCarriedOnCourse(past: seq<SimEvent>, e: Effect, t: TrailerId, p: PackageId, trip: TripId, now: int)
    requires OnCourse(past, e) && Rode(past + e.events, p, Center)
    ensures OnCourse(past, ArriveOverCarried(e, t, p, trip, now))
  {
    hide OnCourse, Rode;
    var arrival := ArrivalEvents(t, Center, trip, now);
    EmitNeutral(past, e, arrival);
    RodeGrows(past + e.events, arrival, t, p, Center);
    var docked := e.Emit(arrival);
    assert past + e.events + arrival == past + docked.events;
    UnloadEventsOnCourse(past, docked, p, Center, now);
    assert docked.Emit(UnloadEvents(p, Center, now)) == ArriveOverCarried(e, t, p, trip, now);
  }

  // ----- What a routed log says -----------------------------------------------------------------------

  /** A package is bound for one hub only. */
  lemma OneDestination(log: seq<SimEvent>, w: World, p: PackageId, h: Hub, g: Hub)
    requires NamesKept(log, w) && BoundFor(log, p, h) && BoundFor(log, p, g)
    ensures h == g
  {
    var i :| 0 <= i < |log| && Names(log[i].event, p, h);
    var j :| 0 <= j < |log| && Names(log[j].event, p, g);
    if i < j { NamedTwice(log, p, i, j); }
    if j < i { NamedTwice(log, p, j, i); }
  }

  lemma {:induction false} NamedTwice(log: seq<SimEvent>, p: PackageId, i: nat, j: nat)
    requires i < j < |log| && Announces(log[i].event) && log[i].event.package == p
    requires Announces(log[j].event) && log[j].event.package == p
    ensures NamedIn(log, p) >= 2
  {
    var front := log[..|log| - 1];
    if j < |log| - 1 {
      NamedTwice(front, p, i, j);
    } else {
      NamedOnceAtLeast(front, p, i);
    }
  }

  lemma {:induction false} NamedOnceAtLeast(log: seq<SimEvent>, p: PackageId, i: nat)
    requires i < |log| && Announces(log[i].event) && log[i].event.package == p
    ensures NamedIn(log, p) >= 1
  {
    if i < |log| - 1 { NamedOnceAtLeast(log[..|log| - 1], p, i); }
  }
}
