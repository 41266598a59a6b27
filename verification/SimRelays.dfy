/**
 * Who drives. A trailer is handed to a fresh driver exactly when its own driver cannot finish the leg within
 * the day, a fresh one may drive for longer, and a spare is free; and what the hand-over is for: when a leg
 * then needs no pause.
 */
module SimRelays {
  import opened Hos
  import opened HosLaws
  import opened SimTypes
  import opened Simulation
  import opened SimLegs

  // ----- Who drives ----------------------------------------------------------------------------------

  /** By the limits of the day, the driver may drive the whole leg without a pause. */
  predicate FitsToday(env: Env, clock: HosClock, leg: nat, now: int) {
    MayDriveNow(clock, env.hosConfig, now) && leg <= RemainingLegalDriveMinutes(clock, env.hosConfig, now)
  }

  /** A driver who may drive at all, and for longer than the other may. */
  predicate DrivesLonger(env: Env, clock: HosClock, other: HosClock, now: int) {
    && MayDriveNow(clock, env.hosConfig, now)
    && (MayDriveNow(other, env.hosConfig, now) ==>
          RemainingLegalDriveMinutes(other, env.hosConfig, now) < RemainingLegalDriveMinutes(clock, env.hosConfig, now))
  }

  predicate Eligible(w: World, current: DriverId, d: DriverId, now: int) {
    d != current && (d in w.availableAt ==> w.availableAt[d] <= now)
  }

  /** The first eligible spare. */
  ghost predicate FirstOf(w: World, current: DriverId, i: int, now: int) {
    && 0 <= i < |w.sparePool| && Eligible(w, current, w.sparePool[i], now)
    && forall j :: 0 <= j < i ==> !Eligible(w, current, w.sparePool[j], now)
  }

  ghost predicate SomeoneEligible(w: World, current: DriverId, now: int) {
    exists i :: FirstOf(w, current, i, now)
  }

  /** The trailer is handed over exactly when that gets its freight further before the first pause. */
  ghost predicate Relays(env: Env, w: World, t: TrailerId, leg: nat, now: int) {
    var current := DriverOf(w, t);
    && !FitsToday(env, ClockOf(w, current), leg, now)
    && DrivesLonger(env, FreshHosClock(now), ClockOf(w, current), now)
    && SomeoneEligible(w, current, now)
  }

  /** The driver coming off starts the long rest and goes to the back of the pool. */
  ghost predicate HandedOver(env: Env, w: World, t: TrailerId, trip: TripId, i: int, now: int, r: Choice) {
    var current, back := DriverOf(w, t), now + env.hosConfig.resetOffDutyMin;
    FirstOf(w, current, i, now)
    && var relief := w.sparePool[i];
       var rested := HosClock(0, back, 0, ClockOf(w, current).weeklyOnDutyMin, back, 0, 0);
    && r.driver == relief
    && r.world == w.(
         clockByDriver := w.clockByDriver[current := rested][relief := HosClock(0, now, 0, 0, now, 0, 0)],
         availableAt := w.availableAt[current := back][relief := now],
         sparePool := w.sparePool[..i] + w.sparePool[i + 1..] + (if current in w.sparePool then [] else [current]),
         driverByTrailer := w.driverByTrailer[t := relief])
    && r.events == [OnTrailer(t, DriverSwappedAtHub(current, relief, Center, trip, t), now),
                    DutyEvent(current, Resting, RelayHandoff, rested, now)]
  }

  lemma {:induction false} FirstFreeIsFirst(w: World, pool: seq<DriverId>, current: DriverId, now: int) returns (i: int)
    ensures var d := FirstFree(w, pool, current, now);
      if d.None? then forall j :: 0 <= j < |pool| ==> !Eligible(w, current, pool[j], now)
      else && 0 <= i < |pool| && d.value == pool[i] && Eligible(w, current, pool[i], now)
           && forall j :: 0 <= j < i ==> !Eligible(w, current, pool[j], now)
  {
    i := 0;
    if pool != [] && !Eligible(w, current, pool[0], now) {
      i := FirstFreeIsFirst(w, pool[1..], current, now);
      assert forall j :: 0 < j < |pool| ==> pool[j] == pool[1..][j - 1];
      i := i + 1;
    }
  }

  lemma {:induction false} RemovedAt(pool: seq<DriverId>, i: nat)
    requires i < |pool| && forall j :: 0 <= j < i ==> pool[j] != pool[i]
    ensures RemoveFirst(pool, pool[i]) == pool[..i] + pool[i + 1..]
  {
    if i > 0 {
      assert pool[1..][i - 1] == pool[i];
      RemovedAt(pool[1..], i - 1);
      assert [pool[0]] + (pool[1..][..i - 1] + pool[1..][i..]) == pool[..i] + pool[i + 1..];
    }
  }

  lemma FirstOfAll(w: World, current: DriverId, i: int, now: int)
    requires FirstOf(w, current, i, now)
    ensures forall j :: 0 <= j < i ==> w.sparePool[j] != w.sparePool[i]
  {
  }

  /** Either the driver stays, unchanged, or the first eligible spare takes over, as stated. */
  lemma SelectionIs(env: Env, w: World, t: TrailerId, trip: TripId, leg: nat, now: int) returns (i: int)
    requires leg >= 1
    ensures var r, current := SelectDriver(env, w, t, trip, leg, now), DriverOf(w, t);
      if Relays(env, w, t, leg, now) then HandedOver(env, w, t, trip, i, now, r)
      else r.driver == current && r.events == []
           && r.world == if FitsToday(env, ClockOf(w, current), leg, now) then w.(availableAt := w.availableAt[current := now]) else w
  {
    var current := DriverOf(w, t);
    i := FirstFreeIsFirst(w, w.sparePool, current, now);
    hide FirstFree, DriverOf, ClockOf, RemoveFirst, RemainingLegalDriveMinutes;
    LegalMinutesMean(env, ClockOf(w, current), leg, now);
    assert LegalMinutes(env, FreshHosClock(now), now) > LegalMinutes(env, ClockOf(w, current), now)
      <==> DrivesLonger(env, FreshHosClock(now), ClockOf(w, current), now) by { LegalMinutesCompare(env, FreshHosClock(now), ClockOf(w, current), now); }
    hide LegalMinutes, FitsToday, DrivesLonger, Eligible;
    if FirstFree(w, w.sparePool, current, now).Some? {
      assert FirstOf(w, current, i, now);
      if Relays(env, w, t, leg, now) { RelayHandsOver(env, w, t, trip, i, now); }
    } else {
      assert !SomeoneEligible(w, current, now);
    }
  }

  lemma LegalMinutesMean(env: Env, clock: HosClock, leg: nat, now: int)
    requires leg >= 1
    ensures LegalMinutes(env, clock, now) >= leg <==> FitsToday(env, clock, leg, now)
  {
    hide BindingLimit;
  }

  lemma LegalMinutesCompare(env: Env, clock: HosClock, other: HosClock, now: int)
    ensures LegalMinutes(env, clock, now) > LegalMinutes(env, other, now) <==> DrivesLonger(env, clock, other, now)
  {
    hide BindingLimit;
  }

  lemma RelayHandsOver(env: Env, w: World, t: TrailerId, trip: TripId, i: int, now: int)
    requires FirstOf(w, DriverOf(w, t), i, now)
    ensures HandedOver(env, w, t, trip, i, now, Relay(env, w, t, trip, DriverOf(w, t), w.sparePool[i], now))
  {
    var current := DriverOf(w, t);
    FirstOfAll(w, current, i, now);
    var pool := w.sparePool + [current];
    if current in w.sparePool {
      RemovedAt(w.sparePool, i);
      assert w.sparePool[..i] + w.sparePool[i + 1..] + [] == w.sparePool[..i] + w.sparePool[i + 1..];
    } else {
      assert forall j :: 0 <= j <= i ==> pool[j] == w.sparePool[j];
      RemovedAt(pool, i);
      assert pool[..i] == w.sparePool[..i] && pool[i + 1..] == w.sparePool[i + 1..] + [current];
      assert pool[..i] + pool[i + 1..] == w.sparePool[..i] + w.sparePool[i + 1..] + [current];
    }
    hide RemoveFirst, ClockOf, FirstOf;
  }

  /** The crew of a departure: the driver found on the trailer, or the first eligible spare, on a fresh clock. */
  lemma CrewIs(env: Env, rng: RngStates, w: World, t: TrailerId, spoke: Hub, at: int) returns (crew: Crew, i: int)
    requires env.Ok() && env.hosOn
    ensures Departs(env, rng, w, t, spoke, at, crew, Fire(env, rng, w, DepartTrailer(t, spoke, at), at))
    ensures var current, back := DriverOf(w, t), at + env.hosConfig.resetOffDutyMin;
      if Relays(env, w, t, TransitOf(env, rng, spoke), at) then
        && FirstOf(w, current, i, at)
        && crew.driver == w.sparePool[i] && crew.clock == HosClock(0, at, 0, 0, at, 0, 0)
        && crew.swaps == [OnTrailer(t, DriverSwappedAtHub(current, crew.driver, Center, w.tripCounter + 1, t), at),
                          SimEvent(DriverStream(current), DriverDutyStateChanged(current, Resting, RelayHandoff,
                              HosClock(0, back, 0, ClockOf(w, current).weeklyOnDutyMin, back, 0, 0)), at)]
      else crew == Crew(current, ClockOf(w, current), [])
  {
    hide *;
    var trip, leg := w.tripCounter + 1, TransitOf(env, rng, spoke);
    TransitTakesTime(env, rng, spoke);
    FireDeparts(env, rng, w, t, spoke, at);
    crew := DepartureOnDuty(env, rng, w, t, spoke, at);
    i := SelectionIs(env, Loaded(w, spoke), t, trip, leg, at);
    LoadedSame(env, w, spoke, t, leg, at);
    var choice := SelectDriver(env, Loaded(w, spoke), t, trip, leg, at);
    if Relays(env, w, t, leg, at) {
      HandedOverTo(env, Loaded(w, spoke), t, trip, i, at, choice);
    } else {
      SameClock(Loaded(w, spoke), choice.world, choice.driver);
    }
  }

  lemma TransitTakesTime(env: Env, rng: RngStates, spoke: Hub)
    ensures TransitOf(env, rng, spoke) >= 1
  {
  }

  lemma FireDeparts(env: Env, rng: RngStates, w: World, t: TrailerId, spoke: Hub, at: int)
    requires env.Ok()
    ensures Fire(env, rng, w, DepartTrailer(t, spoke, at), at) == Depart(env, Effect(rng, w, [], []), t, spoke, at, at)
  {
    hide Depart;
  }

  lemma SameClock(w: World, x: World, d: DriverId)
    requires x.clockByDriver == w.clockByDriver
    ensures ClockOf(x, d) == ClockOf(w, d)
  {
  }

  lemma HandedOverTo(env: Env, w: World, t: TrailerId, trip: TripId, i: int, at: int, r: Choice)
    requires HandedOver(env, w, t, trip, i, at, r)
    ensures var current, back := DriverOf(w, t), at + env.hosConfig.resetOffDutyMin;
      && FirstOf(w, current, i, at) && 0 <= i < |w.sparePool|
      && r.driver == w.sparePool[i] && ClockOf(r.world, r.driver) == HosClock(0, at, 0, 0, at, 0, 0)
      && r.events == [OnTrailer(t, DriverSwappedAtHub(current, r.driver, Center, trip, t), at),
                      SimEvent(DriverStream(current), DriverDutyStateChanged(current, Resting, RelayHandoff,
                              HosClock(0, back, 0, ClockOf(w, current).weeklyOnDutyMin, back, 0, 0)), at)]
  {
  }

  lemma LoadedSame(env: Env, w: World, spoke: Hub, t: TrailerId, leg: nat, at: int)
    ensures var x := Loaded(w, spoke);
      && x.clockByDriver == w.clockByDriver && x.availableAt == w.availableAt
      && (Relays(env, x, t, leg, at) <==> Relays(env, w, t, leg, at))
      && (forall d, i :: FirstOf(x, d, i, at) <==> FirstOf(w, d, i, at))
      && x.sparePool == w.sparePool && DriverOf(x, t) == DriverOf(w, t) && (forall d :: ClockOf(x, d) == ClockOf(w, d))
  {
    hide RemainingLegalDriveMinutes;
    assert forall d, i :: FirstOf(Loaded(w, spoke), d, i, at) <==> FirstOf(w, d, i, at);
  }

  // ----- What the selection is for ------------------------------------------------------------------

  lemma {:induction false} NoPauseIsAllDriving(log: seq<DutySegment>)
    ensures PausesOf(log) == [] <==> forall k :: 0 <= k < |log| ==> log[k].kind == Drive
  {
    if log != [] {
      NoPauseIsAllDriving(log[1..]);
      assert forall k :: 1 <= k < |log| ==> log[k] == log[1..][k - 1];
      assert forall k :: 0 <= k < |log| - 1 ==> log[1..][k] == log[k + 1];
    }
  }

  /** After a stretch of driving that does not end the leg comes a pause. */
  lemma PauseAfterDriving(clock: HosClock, config: HosConfig, leg: nat, now: int)
    requires config.Positive() && leg > 0
    requires var s := NextSegment(clock, config, leg, now); s.kind == Drive && s.minutes < leg
    ensures var s := NextSegment(clock, config, leg, now);
      NextSegment(NextClock(clock, config, leg, now), config, leg - s.minutes, now + s.minutes).kind != Drive
  {
  }

  /** A leg needs no pause exactly when it fits the limits of the day and of the week. */
  lemma NoPauseIff(clock: HosClock, config: HosConfig, leg: nat, now: int)
    requires config.Positive() && leg > 0
    ensures PausesOf(DriveLeg(clock, config, leg, now).segments) == []
       <==> leg <= RemainingLegalDriveMinutes(clock, config, now) && leg <= WeeklyHeadroom(clock, config)
  {
    hide RemainingLegalDriveMinutes, WeeklyHeadroom;
    var log := DriveLeg(clock, config, leg, now).segments;
    SingleDriveIff(clock, config, leg, now);
    NoPauseIsAllDriving(log);
    hide DriveLeg, NextSegment, NextClock;
    var s, next := NextSegment(clock, config, leg, now), NextClock(clock, config, leg, now);
    TurnMakesProgress(clock, config, leg, now);
    FirstTurn(clock, config, leg, now);
    assert log[0] == s;
    if s.kind == Drive {
      var rest := DriveLeg(next, config, leg - DrivenIn(s), now + s.minutes);
      if s.minutes < leg {
        PauseAfterDriving(clock, config, leg, now);
        FirstTurn(next, config, leg - s.minutes, now + s.minutes);
        assert log[1] == rest.segments[0];
      } else {
        NothingToDrive(next, config, now + s.minutes);
        assert log == [DutySegment(Drive, leg)];
      }
    }
  }

  /** The driver who keeps the trailer because the leg fits the day drives it through exactly when it fits the week. */
  lemma KeptDriverNeedsNoPauseIff(env: Env, clock: HosClock, leg: nat, now: int)
    requires env.Ok() && leg > 0 && FitsToday(env, clock, leg, now)
    ensures PausesOf(DriveLeg(clock, env.hosConfig, leg, now).segments) == [] <==> leg <= WeeklyHeadroom(clock, env.hosConfig)
  {
    hide DriveLeg, RemainingLegalDriveMinutes, WeeklyHeadroom;
    NoPauseIff(clock, env.hosConfig, leg, now);
  }

  /** A driver with one minute of the week left keeps the trailer for two, and parks for the restart on the way. */
  lemma AKeptDriverParks(env: Env, now: int)
    requires env.Ok() && env.hosConfig == DEFAULT_HOS_CONFIG
    ensures var clock := HosClock(0, now, 0, 4199, now, 0, 0);
      FitsToday(env, clock, 2, now) && PausesOf(DriveLeg(clock, env.hosConfig, 2, now).segments) != []
  {
    KeptDriverNeedsNoPauseIff(env, HosClock(0, now, 0, 4199, now, 0, 0), 2, now);
    hide DriveLeg;
  }

  /** A relief comes fresh, but drives through only what one day, one stretch and one week allow. */
  lemma ReliefNeedsNoPauseIff(env: Env, leg: nat, now: int)
    requires env.Ok() && leg > 0
    ensures var c := env.hosConfig;
      PausesOf(DriveLeg(FreshHosClock(now), c, leg, now).segments) == []
      <==> leg <= c.maxDriveMin && leg <= c.dutyWindowMin && leg <= c.breakAfterDriveMin && leg <= c.weeklyCapMin
  {
    NoPauseIff(FreshHosClock(now), env.hosConfig, leg, now);
    hide DriveLeg;
  }

  /** The relief never has to stop sooner than the driver relieved. */
  lemma ReliefGetsFurther(env: Env, w: World, t: TrailerId, leg: nat, now: int)
    requires env.Ok() && leg > 0 && Relays(env, w, t, leg, now)
    requires env.hosConfig.weeklyCapMin >= Min(env.hosConfig.maxDriveMin, Min(env.hosConfig.dutyWindowMin, env.hosConfig.breakAfterDriveMin))
    ensures FirstStretch(env, ClockOf(w, DriverOf(w, t)), leg, now) < FirstStretch(env, FreshHosClock(now), leg, now)
  {
    var clock := ClockOf(w, DriverOf(w, t));
    FirstTurn(clock, env.hosConfig, leg, now);
    FirstTurn(FreshHosClock(now), env.hosConfig, leg, now);
    hide DriveLeg, ClockOf, DriverOf;
  }

  /** The minutes driven before the first pause. */
  function FirstStretch(env: Env, clock: HosClock, leg: nat, now: int): int
    requires env.Ok()
  {
    var log := DriveLeg(clock, env.hosConfig, leg, now).segments;
    if log != [] && log[0].kind == Drive then log[0].minutes else 0
  }
}
