/**
 * What the Hours-of-Service engine is for: every duty log it labels is accepted by a
 * checker that knows only the log, and a leg may be cut at any minute.
 */
module HosLaws {
  import opened Hos

  // ----- Totals of a log --------------------------------------------------

  function DriveMinutes(log: seq<DutySegment>): int {
    if log == [] then 0 else DrivenIn(log[0]) + DriveMinutes(log[1..])
  }

  function Elapsed(log: seq<DutySegment>): int {
    if log == [] then 0 else log[0].minutes + Elapsed(log[1..])
  }

  // ----- The independent checker ------------------------------------------
  // It reads the log by position and never runs a clock: each rule bounds a total over
  // every stretch of the log that holds no pause of the curing kind.

  datatype Cure = PauseOfAtLeast(minutes: int) | RestOfAtLeast(minutes: int)

  predicate Cures(cure: Cure, s: DutySegment) {
    match cure
    case PauseOfAtLeast(minutes) => s.kind != Drive && s.minutes >= minutes
    case RestOfAtLeast(minutes) => s.kind == Rest && s.minutes >= minutes
  }

  ghost predicate NoneIn(log: seq<DutySegment>, cure: Cure) {
    forall k :: 0 <= k < |log| ==> !Cures(cure, log[k])
  }

  /**
   * `budget(start)` bounds the driving of every stretch that begins right after a curing
   * pause; `carried` bounds the stretch the driver walked in with.
   */
  ghost predicate DriveBounded(log: seq<DutySegment>, cure: Cure, carried: int, budget: int) {
    && (forall b :: 0 <= b <= |log| && NoneIn(log[..b], cure) ==> DriveMinutes(log[..b]) <= Max(0, carried))
    && (forall a, b :: 0 < a <= b <= |log| && Cures(cure, log[a - 1]) && NoneIn(log[a..b], cure)
          ==> DriveMinutes(log[a..b]) <= budget)
  }

  /** The 14h rule: wall time, so pauses inside the shift count too. */
  ghost predicate WindowKept(log: seq<DutySegment>, cure: Cure, deadline: int, start: int, window: int) {
    && (forall b :: 0 < b <= |log| && log[b - 1].kind == Drive && NoneIn(log[..b], cure)
          ==> start + Elapsed(log[..b]) <= deadline)
    && (forall a, b :: 0 < a < b <= |log| && Cures(cure, log[a - 1]) && log[b - 1].kind == Drive && NoneIn(log[a..b], cure)
          ==> Elapsed(log[a..b]) <= window)
  }

  ghost predicate LegalLog(clock: HosClock, config: HosConfig, start: int, log: seq<DutySegment>) {
    // 49 CFR 395.3(a)(3)(i): 11 hours of driving between rests of 10 hours.
    && DriveBounded(log, RestOfAtLeast(config.resetOffDutyMin),
                    config.maxDriveMin - clock.driveTodayMin, config.maxDriveMin)
    // 49 CFR 395.3(a)(2): no driving after the 14th hour since coming on duty from such a rest.
    && WindowKept(log, RestOfAtLeast(config.resetOffDutyMin),
                  clock.dutyWindowStartAt + config.dutyWindowMin, start, config.dutyWindowMin)
    // 49 CFR 395.3(a)(3)(ii): 8 hours of driving between interruptions of 30 minutes.
    && DriveBounded(log, PauseOfAtLeast(config.minBreakMin),
                    config.breakAfterDriveMin - clock.sinceLastBreakMin, config.breakAfterDriveMin)
    // 49 CFR 395.3(b) and (c): 70 hours between 34h restarts.
    && DriveBounded(log, RestOfAtLeast(config.restartMin),
                    config.weeklyCapMin - clock.weeklyOnDutyMin, config.weeklyCapMin)
  }

  /**
   * The limits a caller can check before asking for a leg: the engine lets a restart stand for a rest
   * and either of them stand for a break, so each must be long enough to be one. A rest shorter than a
   * break does no harm only where a single minute of driving already calls for a break or a restart.
   */
  predicate Coherent(config: HosConfig) {
    && config.Positive()
    && config.resetOffDutyMin <= config.restartMin && config.minBreakMin <= config.restartMin
    && (config.minBreakMin <= config.resetOffDutyMin || config.breakAfterDriveMin == 1 || config.weeklyCapMin == 1)
  }

  // ----- Extending a checked log at the front ------------------------------

  lemma NoneInCons(s: DutySegment, log: seq<DutySegment>, cure: Cure)
    ensures NoneIn([s] + log, cure) <==> !Cures(cure, s) && NoneIn(log, cure)
  {
    if !Cures(cure, s) && NoneIn(log, cure) {
      assert forall k :: 0 < k < |[s] + log| ==> ([s] + log)[k] == log[k - 1];
    }
    if NoneIn([s] + log, cure) {
      assert ([s] + log)[0] == s;
      assert forall k :: 0 <= k < |log| ==> log[k] == ([s] + log)[k + 1];
    }
  }

  lemma ConsSlices(s: DutySegment, log: seq<DutySegment>)
    ensures forall b :: 0 < b <= |log| + 1 ==> ([s] + log)[..b] == [s] + log[..b - 1]
    ensures forall a, b :: 0 < a <= b <= |log| + 1 ==> ([s] + log)[a..b] == log[a - 1..b - 1]
  {
  }

  lemma ConsTotals(s: DutySegment, log: seq<DutySegment>)
    ensures DriveMinutes([s] + log) == DrivenIn(s) + DriveMinutes(log)
    ensures Elapsed([s] + log) == s.minutes + Elapsed(log)
  {
    assert ([s] + log)[1..] == log;
  }

  /** One counted clock: prepending a segment that counts, or one that cures. */
  lemma DriveBoundedCons(s: DutySegment, log: seq<DutySegment>, cure: Cure,
                         carried: int, carried': int, budget: int)
    requires DriveBounded(log, cure, carried', budget)
    requires if Cures(cure, s) then s.kind != Drive && carried' <= budget && 0 <= budget
             else carried' <= carried - DrivenIn(s) && (s.kind == Drive ==> 0 <= s.minutes <= carried)
    ensures DriveBounded([s] + log, cure, carried, budget)
  {
    var all := [s] + log;
    ConsSlices(s, log);
    forall b | 0 <= b <= |all| && NoneIn(all[..b], cure) ensures DriveMinutes(all[..b]) <= Max(0, carried) {
      if b > 0 {
        NoneInCons(s, log[..b - 1], cure);
        ConsTotals(s, log[..b - 1]);
      }
    }
    forall a, b | 0 < a <= b <= |all| && Cures(cure, all[a - 1]) && NoneIn(all[a..b], cure)
      ensures DriveMinutes(all[a..b]) <= budget
    {
      if a == 1 {
        assert all[1..b] == log[..b - 1];
      } else {
        assert all[a - 1] == log[a - 2];
      }
    }
  }

  lemma WindowKeptCons(s: DutySegment, log: seq<DutySegment>, cure: Cure,
                       deadline: int, deadline': int, start: int, window: int)
    requires WindowKept(log, cure, deadline', start + s.minutes, window)
    requires Cures(cure, s) ==> s.kind != Drive && deadline' == start + s.minutes + window
    requires !Cures(cure, s) ==> deadline' == deadline
    requires s.kind == Drive ==> start + s.minutes <= deadline
    ensures WindowKept([s] + log, cure, deadline, start, window)
  {
    var all := [s] + log;
    ConsSlices(s, log);
    forall b | 0 < b <= |all| && all[b - 1].kind == Drive && NoneIn(all[..b], cure)
      ensures start + Elapsed(all[..b]) <= deadline
    {
      NoneInCons(s, log[..b - 1], cure);
      ConsTotals(s, log[..b - 1]);
      if b > 1 {
        assert all[b - 1] == log[b - 2];
      }
    }
    forall a, b | 0 < a < b <= |all| && Cures(cure, all[a - 1]) && all[b - 1].kind == Drive && NoneIn(all[a..b], cure)
      ensures Elapsed(all[a..b]) <= window
    {
      assert all[b - 1] == log[b - 2];
      if a == 1 {
        assert all[1..b] == log[..b - 1];
      } else {
        assert all[a - 1] == log[a - 2];
      }
    }
  }

  /** What may still be driven before an interruption is due, the weekly cap included. */
  function ToInterruption(clock: HosClock, config: HosConfig): int {
    Min(config.breakAfterDriveMin - clock.sinceLastBreakMin, WeeklyHeadroom(clock, config))
  }

  /** The rules as the induction carries them: the 8h rule with the weekly headroom taken into account. */
  ghost predicate Kept(clock: HosClock, config: HosConfig, start: int, log: seq<DutySegment>) {
    && DriveBounded(log, RestOfAtLeast(config.resetOffDutyMin), config.maxDriveMin - clock.driveTodayMin, config.maxDriveMin)
    && WindowKept(log, RestOfAtLeast(config.resetOffDutyMin),
                  clock.dutyWindowStartAt + config.dutyWindowMin, start, config.dutyWindowMin)
    && DriveBounded(log, PauseOfAtLeast(config.minBreakMin), ToInterruption(clock, config), config.breakAfterDriveMin)
    && DriveBounded(log, RestOfAtLeast(config.restartMin), WeeklyHeadroom(clock, config), config.weeklyCapMin)
  }

  lemma KeptIsLegal(clock: HosClock, config: HosConfig, start: int, log: seq<DutySegment>)
    requires Kept(clock, config, start, log)
    ensures LegalLog(clock, config, start, log)
  {
    hide NoneIn, WindowKept, DriveMinutes;
  }

  lemma DayRulesExtend(clock: HosClock, config: HosConfig, leg: nat, now: int, log: seq<DutySegment>)
    requires Coherent(config) && leg > 0
    requires var next := NextClock(clock, config, leg, now);
             && DriveBounded(log, RestOfAtLeast(config.resetOffDutyMin),
                             config.maxDriveMin - next.driveTodayMin, config.maxDriveMin)
             && WindowKept(log, RestOfAtLeast(config.resetOffDutyMin), next.dutyWindowStartAt + config.dutyWindowMin,
                           now + NextSegment(clock, config, leg, now).minutes, config.dutyWindowMin)
    ensures var all := [NextSegment(clock, config, leg, now)] + log;
            && DriveBounded(all, RestOfAtLeast(config.resetOffDutyMin),
                            config.maxDriveMin - clock.driveTodayMin, config.maxDriveMin)
            && WindowKept(all, RestOfAtLeast(config.resetOffDutyMin), clock.dutyWindowStartAt + config.dutyWindowMin,
                          now, config.dutyWindowMin)
  {
    var s := NextSegment(clock, config, leg, now);
    var next := NextClock(clock, config, leg, now);
    var cure := RestOfAtLeast(config.resetOffDutyMin);
    hide DriveBounded, WindowKept;
    DriveBoundedCons(s, log, cure,
                     config.maxDriveMin - clock.driveTodayMin, config.maxDriveMin - next.driveTodayMin, config.maxDriveMin);
    WindowKeptCons(s, log, cure, clock.dutyWindowStartAt + config.dutyWindowMin,
                   next.dutyWindowStartAt + config.dutyWindowMin, now, config.dutyWindowMin);
  }

  lemma OtherRulesExtend(clock: HosClock, config: HosConfig, leg: nat, now: int, log: seq<DutySegment>)
    requires Coherent(config) && leg > 0 && 0 <= clock.weeklyOnDutyMin
    requires var next := NextClock(clock, config, leg, now);
             && DriveBounded(log, PauseOfAtLeast(config.minBreakMin), ToInterruption(next, config), config.breakAfterDriveMin)
             && DriveBounded(log, RestOfAtLeast(config.restartMin), WeeklyHeadroom(next, config), config.weeklyCapMin)
    ensures var all := [NextSegment(clock, config, leg, now)] + log;
            && DriveBounded(all, PauseOfAtLeast(config.minBreakMin), ToInterruption(clock, config), config.breakAfterDriveMin)
            && DriveBounded(all, RestOfAtLeast(config.restartMin), WeeklyHeadroom(clock, config), config.weeklyCapMin)
  {
    var s := NextSegment(clock, config, leg, now);
    var next := NextClock(clock, config, leg, now);
    hide DriveBounded;
    DriveBoundedCons(s, log, PauseOfAtLeast(config.minBreakMin),
                     ToInterruption(clock, config), ToInterruption(next, config), config.breakAfterDriveMin);
    DriveBoundedCons(s, log, RestOfAtLeast(config.restartMin),
                     WeeklyHeadroom(clock, config), WeeklyHeadroom(next, config), config.weeklyCapMin);
  }

  lemma KeptExtends(clock: HosClock, config: HosConfig, leg: nat, now: int, log: seq<DutySegment>)
    requires Coherent(config) && leg > 0 && 0 <= clock.weeklyOnDutyMin
    requires Kept(NextClock(clock, config, leg, now), config, now + NextSegment(clock, config, leg, now).minutes, log)
    ensures Kept(clock, config, now, [NextSegment(clock, config, leg, now)] + log)
  {
    hide DriveBounded, WindowKept, NextClock, NextSegment, Coherent;
    DayRulesExtend(clock, config, leg, now, log);
    OtherRulesExtend(clock, config, leg, now, log);
  }

  lemma EmptyLogIsKept(clock: HosClock, config: HosConfig, now: int)
    ensures Kept(clock, config, now, [])
  {
    var none: seq<DutySegment> := [];
    assert forall b :: 0 <= b <= |none| ==> none[..b] == none;
  }

  lemma WeeklyStaysNonNegative(clock: HosClock, config: HosConfig, leg: nat, now: int)
    requires config.Positive() && leg > 0 && 0 <= clock.weeklyOnDutyMin
    ensures 0 <= NextClock(clock, config, leg, now).weeklyOnDutyMin
  {
  }

  lemma {:induction false} EngineLogIsKept(clock: HosClock, config: HosConfig, leg: nat, now: int)
    requires Coherent(config) && 0 <= clock.weeklyOnDutyMin
    ensures Kept(clock, config, now, DriveLeg(clock, config, leg, now).segments)
    decreases leg, PauseRank(clock, config, now)
  {
    hide Kept, NextClock, NextSegment, PauseRank;
    if leg == 0 {
      EmptyLogIsKept(clock, config, now);
    } else {
      TurnMakesProgress(clock, config, leg, now);
      WeeklyStaysNonNegative(clock, config, leg, now);
      var s := NextSegment(clock, config, leg, now);
      EngineLogIsKept(NextClock(clock, config, leg, now), config, leg - DrivenIn(s), now + s.minutes);
      KeptExtends(clock, config, leg, now,
                  DriveLeg(NextClock(clock, config, leg, now), config, leg - DrivenIn(s), now + s.minutes).segments);
    }
  }

  /** The checker accepts every log the engine labels, for all coherent limits and any starting clock. */
  lemma EngineLogIsLegal(clock: HosClock, config: HosConfig, leg: nat, now: int)
    requires Coherent(config) && 0 <= clock.weeklyOnDutyMin
    ensures LegalLog(clock, config, now, DriveLeg(clock, config, leg, now).segments)
  {
    hide Kept, LegalLog, DriveLeg;
    EngineLogIsKept(clock, config, leg, now);
    KeptIsLegal(clock, config, now, DriveLeg(clock, config, leg, now).segments);
  }

  // ----- Limits under which the engine breaks the rules --------------------------------------

  ghost predicate AlwaysLegal(config: HosConfig)
    requires config.Positive()
  {
    forall clock: HosClock, leg: nat, now: int :: 0 <= clock.weeklyOnDutyMin ==>
      LegalLog(clock, config, now, DriveLeg(clock, config, leg, now).segments)
  }

  lemma SpentWeekFirst(clock: HosClock, config: HosConfig)
    requires config.Positive() && clock.weeklyOnDutyMin == config.weeklyCapMin
    ensures DriveLeg(clock, config, 1, 0).segments == [DutySegment(Rest, config.restartMin), DutySegment(Drive, 1)]
  {
    hide DriveLeg, PauseRank;
    FirstTurn(clock, config, 1, 0);
    var rested := NextClock(clock, config, 1, 0);
    FirstTurn(rested, config, 1, config.restartMin);
    NothingToDrive(NextClock(rested, config, 1, config.restartMin), config, config.restartMin + 1);
  }

  lemma TwoEntries(a: DutySegment, b: DutySegment)
    ensures DriveMinutes([a, b]) == DrivenIn(a) + DrivenIn(b) && [a, b][..2] == [a, b]
    ensures forall cure :: NoneIn([a, b], cure) <==> !Cures(cure, a) && !Cures(cure, b)
  {
    assert [a, b][1..] == [b] && [b][1..] == [];
    assert DriveMinutes([b]) == DrivenIn(b);
    forall cure ensures NoneIn([a, b], cure) <==> !Cures(cure, a) && !Cures(cure, b) {
      assert NoneIn([a, b], cure) ==> !Cures(cure, [a, b][0]) && !Cures(cure, [a, b][1]);
    }
  }

  /**
   * A driver at the 11h limit and at the weekly cap: the engine's restart clears both, so with a
   * restart shorter than a rest the driver goes on without the rest the limit asks for.
   */
  lemma AShortRestartSkipsTheRest(config: HosConfig)
    requires config.Positive() && config.restartMin < config.resetOffDutyMin
    ensures var clock := HosClock(config.maxDriveMin, 0, 0, config.weeklyCapMin, 0, 0, 0);
            var log := [DutySegment(Rest, config.restartMin), DutySegment(Drive, 1)];
            DriveLeg(clock, config, 1, 0).segments == log && !LegalLog(clock, config, 0, log)
  {
    SpentWeekFirst(HosClock(config.maxDriveMin, 0, 0, config.weeklyCapMin, 0, 0, 0), config);
    TwoEntries(DutySegment(Rest, config.restartMin), DutySegment(Drive, 1));
  }

  /** The same for a driver due a break, with a restart shorter than a break. */
  lemma AShortRestartSkipsTheBreak(config: HosConfig)
    requires config.Positive() && config.restartMin < config.minBreakMin
    ensures var clock := HosClock(0, 0, config.breakAfterDriveMin, config.weeklyCapMin, 0, 0, 0);
            var log := [DutySegment(Rest, config.restartMin), DutySegment(Drive, 1)];
            DriveLeg(clock, config, 1, 0).segments == log && !LegalLog(clock, config, 0, log)
  {
    SpentWeekFirst(HosClock(0, 0, config.breakAfterDriveMin, config.weeklyCapMin, 0, 0, 0), config);
    TwoEntries(DutySegment(Rest, config.restartMin), DutySegment(Drive, 1));
  }

  lemma NoneInNothing(cure: Cure)
    ensures NoneIn([], cure)
  {
  }

  /** With minutes to spare before a break and a restart, a turn drives or takes the short rest. */
  lemma ShortTurn(clock: HosClock, config: HosConfig, leg: nat, now: int)
    requires config.Positive() && leg > 0 && config.resetOffDutyMin < config.minBreakMin
    requires clock.weeklyOnDutyMin + leg <= config.weeklyCapMin && clock.sinceLastBreakMin + leg <= config.breakAfterDriveMin
    requires leg <= config.breakAfterDriveMin
    ensures var s, next := NextSegment(clock, config, leg, now), NextClock(clock, config, leg, now);
            && 0 <= DrivenIn(s) <= leg && !Cures(PauseOfAtLeast(config.minBreakMin), s)
            && next.weeklyOnDutyMin + (leg - DrivenIn(s)) <= config.weeklyCapMin
            && next.sinceLastBreakMin + (leg - DrivenIn(s)) <= config.breakAfterDriveMin
  {
  }

  lemma {:induction false} PausesAreShort(config: HosConfig, clock: HosClock, leg: nat, now: int)
    requires config.Positive() && config.resetOffDutyMin < config.minBreakMin && leg <= config.breakAfterDriveMin
    requires clock.weeklyOnDutyMin + leg <= config.weeklyCapMin && clock.sinceLastBreakMin + leg <= config.breakAfterDriveMin
    ensures NoneIn(DriveLeg(clock, config, leg, now).segments, PauseOfAtLeast(config.minBreakMin))
    decreases leg, PauseRank(clock, config, now)
  {
    hide DriveLeg, PauseRank, NoneIn, NextSegment, NextClock, Cures;
    var cure := PauseOfAtLeast(config.minBreakMin);
    if leg == 0 {
      NothingToDrive(clock, config, now);
      NoneInNothing(cure);
    } else {
      TurnMakesProgress(clock, config, leg, now);
      FirstTurn(clock, config, leg, now);
      ShortTurn(clock, config, leg, now);
      var s, next := NextSegment(clock, config, leg, now), NextClock(clock, config, leg, now);
      PausesAreShort(config, next, leg - DrivenIn(s), now + s.minutes);
      NoneInCons(s, DriveLeg(next, config, leg - DrivenIn(s), now + s.minutes).segments, cure);
    }
  }

  /** A driver at the 11h limit one minute short of a break: a rest too short to be one lets two minutes follow. */
  lemma AShortRestSkipsTheBreak(config: HosConfig)
    requires config.Positive() && config.resetOffDutyMin < config.minBreakMin
    requires config.breakAfterDriveMin >= 2 && config.weeklyCapMin >= 2
    ensures var clock := HosClock(config.maxDriveMin, 0, config.breakAfterDriveMin - 1, 0, 0, 0, 0);
            !LegalLog(clock, config, 0, DriveLeg(clock, config, 2, 0).segments)
  {
    var clock := HosClock(config.maxDriveMin, 0, config.breakAfterDriveMin - 1, 0, 0, 0, 0);
    var next := NextClock(clock, config, 2, 0);
    var s := DutySegment(Rest, config.resetOffDutyMin);
    assert NextSegment(clock, config, 2, 0) == s;
    FirstTurn(clock, config, 2, 0);
    PausesAreShort(config, next, 2, s.minutes);
    LegTotals(clock, config, 2, 0);
    hide DriveLeg, NextClock, NextSegment, NoneIn, WindowKept;
    var log := DriveLeg(clock, config, 2, 0).segments;
    NoneInCons(s, DriveLeg(next, config, 2, s.minutes).segments, PauseOfAtLeast(config.minBreakMin));
    assert log[..|log|] == log;
  }

  /** The limits the engine keeps for every driver and every leg are exactly the coherent ones. */
  lemma EngineIsLegalIff(config: HosConfig)
    requires config.Positive()
    ensures AlwaysLegal(config) <==> Coherent(config)
  {
    hide LegalLog, DriveLeg;
    if Coherent(config) {
      forall clock: HosClock, leg: nat, now: int | 0 <= clock.weeklyOnDutyMin
        ensures LegalLog(clock, config, now, DriveLeg(clock, config, leg, now).segments)
      {
        EngineLogIsLegal(clock, config, leg, now);
      }
    } else if config.restartMin < config.resetOffDutyMin {
      AShortRestartSkipsTheRest(config);
    } else if config.restartMin < config.minBreakMin {
      AShortRestartSkipsTheBreak(config);
    } else {
      AShortRestSkipsTheBreak(config);
    }
  }

  /** The limits of 49 CFR part 395 are coherent. */
  lemma DefaultLimitsAreCoherent()
    ensures Coherent(DEFAULT_HOS_CONFIG) && AlwaysLegal(DEFAULT_HOS_CONFIG)
  {
    hide AlwaysLegal;
    EngineIsLegalIff(DEFAULT_HOS_CONFIG);
  }

  /** `RemainingLegalDriveMinutes` and the weekly headroom are exactly what the checker lets a driver drive in one go. */
  lemma LongestLegalDrive(clock: HosClock, config: HosConfig, now: int, minutes: int)
    requires config.Positive() && minutes > 0
    ensures LegalLog(clock, config, now, [DutySegment(Drive, minutes)])
            <==> minutes <= RemainingLegalDriveMinutes(clock, config, now) && minutes <= WeeklyHeadroom(clock, config)
  {
    var log := [DutySegment(Drive, minutes)];
    assert DriveMinutes(log) == minutes && Elapsed(log) == minutes by {
      assert log[1..] == [];
    }
    assert log[..0] == [] && log[..1] == log;
    assert forall cure :: NoneIn(log, cure);
  }

  // ----- Shape of a log ------------------------------------------------------

  lemma NothingToDrive(clock: HosClock, config: HosConfig, now: int)
    requires config.Positive()
    ensures DriveLeg(clock, config, 0, now) == Leg([], clock, now)
  {
  }

  /** One turn of the loop, as an equation. */
  lemma FirstTurn(clock: HosClock, config: HosConfig, leg: nat, now: int)
    requires config.Positive() && leg > 0
    ensures var s := NextSegment(clock, config, leg, now);
            && DrivenIn(s) <= leg && 0 < s.minutes
            && var rest := DriveLeg(NextClock(clock, config, leg, now), config, leg - DrivenIn(s), now + s.minutes);
               DriveLeg(clock, config, leg, now) == Leg([s] + rest.segments, rest.clock, rest.endMin)
  {
    hide NextSegment, NextClock, PauseRank;
    TurnMakesProgress(clock, config, leg, now);
  }

  lemma TotalsExtend(s: DutySegment, rest: Leg, leg: nat, now: int)
    requires DrivenIn(s) <= leg && 0 < s.minutes
    requires DriveMinutes(rest.segments) == leg - DrivenIn(s) && rest.endMin == now + s.minutes + Elapsed(rest.segments)
    requires leg - DrivenIn(s) > 0 ==> rest.segments != [] && rest.segments[|rest.segments| - 1].kind == Drive
    requires leg == DrivenIn(s) ==> rest.segments == []
    requires forall k :: 0 <= k < |rest.segments| ==> rest.segments[k].minutes > 0
    ensures DriveMinutes([s] + rest.segments) == leg && rest.endMin == now + Elapsed([s] + rest.segments)
    ensures leg > 0 ==> ([s] + rest.segments)[|rest.segments|].kind == Drive
    ensures forall k :: 0 <= k < |[s] + rest.segments| ==> ([s] + rest.segments)[k].minutes > 0
  {
    ConsTotals(s, rest.segments);
    hide DriveMinutes, Elapsed;
  }

  /** Driving totals the leg, the end is the start plus every minute logged, and the last entry is a drive. */
  lemma {:induction false} LegTotals(clock: HosClock, config: HosConfig, leg: nat, now: int)
    requires config.Positive()
    ensures var r := DriveLeg(clock, config, leg, now);
            && DriveMinutes(r.segments) == leg
            && r.endMin == now + Elapsed(r.segments)
            && (leg > 0 ==> r.segments != [] && r.segments[|r.segments| - 1].kind == Drive)
            && (forall k :: 0 <= k < |r.segments| ==> r.segments[k].minutes > 0)
    decreases leg, PauseRank(clock, config, now)
  {
    hide DriveLeg, NextSegment, NextClock, PauseRank;
    NothingToDrive(clock, config, now);
    if leg > 0 {
      TurnMakesProgress(clock, config, leg, now);
      FirstTurn(clock, config, leg, now);
      var s := NextSegment(clock, config, leg, now);
      var next := NextClock(clock, config, leg, now);
      LegTotals(next, config, leg - DrivenIn(s), now + s.minutes);
      NothingToDrive(next, config, now + s.minutes);
      TotalsExtend(s, DriveLeg(next, config, leg - DrivenIn(s), now + s.minutes), leg, now);
    }
  }

  function LeadingPauses(log: seq<DutySegment>): nat {
    if log == [] || log[0].kind == Drive then 0 else 1 + LeadingPauses(log[1..])
  }

  lemma PausesExtend(s: DutySegment, rest: seq<DutySegment>)
    requires forall k :: 0 <= k <= |rest| ==> LeadingPauses(rest[k..]) <= 2
    ensures LeadingPauses([s] + rest) == if s.kind == Drive then 0 else 1 + LeadingPauses(rest)
    ensures forall k :: 0 < k <= |[s] + rest| ==> LeadingPauses(([s] + rest)[k..]) <= 2
  {
    assert ([s] + rest)[1..] == rest;
    assert forall k :: 0 < k <= |[s] + rest| ==> ([s] + rest)[k..] == rest[k - 1..];
  }

  lemma RankAtMostTwo(clock: HosClock, config: HosConfig, now: int)
    ensures PauseRank(clock, config, now) <= 2
  {
  }

  /** Before any drive there are at most two pauses: a break, then a rest. */
  lemma {:induction false} AtMostTwoPausesBeforeADrive(clock: HosClock, config: HosConfig, leg: nat, now: int)
    requires config.Positive()
    ensures var log := DriveLeg(clock, config, leg, now).segments;
            && LeadingPauses(log) <= PauseRank(clock, config, now) <= 2
            && forall k :: 0 <= k <= |log| ==> LeadingPauses(log[k..]) <= 2
    decreases leg, PauseRank(clock, config, now)
  {
    hide DriveLeg, NextSegment, NextClock, PauseRank;
    RankAtMostTwo(clock, config, now);
    NothingToDrive(clock, config, now);
    if leg > 0 {
      TurnMakesProgress(clock, config, leg, now);
      FirstTurn(clock, config, leg, now);
      var s := NextSegment(clock, config, leg, now);
      var next := NextClock(clock, config, leg, now);
      AtMostTwoPausesBeforeADrive(next, config, leg - DrivenIn(s), now + s.minutes);
      var rest := DriveLeg(next, config, leg - DrivenIn(s), now + s.minutes).segments;
      PausesExtend(s, rest);
      assert ([s] + rest)[0..] == [s] + rest;
    }
  }

  /** A leg needs no pause exactly when it fits the legal minutes and the weekly headroom left. */
  lemma SingleDriveIff(clock: HosClock, config: HosConfig, leg: nat, now: int)
    requires config.Positive() && leg > 0
    ensures DriveLeg(clock, config, leg, now).segments == [DutySegment(Drive, leg)]
            <==> leg <= RemainingLegalDriveMinutes(clock, config, now) && leg <= WeeklyHeadroom(clock, config)
  {
    TurnMakesProgress(clock, config, leg, now);
    var s := NextSegment(clock, config, leg, now);
    var next := NextClock(clock, config, leg, now);
    var rest := DriveLeg(next, config, leg - DrivenIn(s), now + s.minutes);
    assert DriveLeg(clock, config, leg, now).segments == [s] + rest.segments;
    if [s] + rest.segments == [DutySegment(Drive, leg)] {
      assert ([s] + rest.segments)[0] == s;
    }
  }

  // ----- Cutting a leg ---------------------------------------------------------

  /** Puts a segment in front of a log whose adjacent drives are already merged. */
  function Prepend(s: DutySegment, log: seq<DutySegment>): seq<DutySegment> {
    if s.kind == Drive && log != [] && log[0].kind == Drive then
      [DutySegment(Drive, s.minutes + log[0].minutes)] + log[1..]
    else
      [s] + log
  }

  /** The timeline a log shows: adjacent drive segments read as one. */
  function Merged(log: seq<DutySegment>): seq<DutySegment> {
    if log == [] then [] else Prepend(log[0], Merged(log[1..]))
  }

  lemma MergedCons(s: DutySegment, log: seq<DutySegment>)
    ensures Merged([s] + log) == Prepend(s, Merged(log))
  {
    assert ([s] + log)[1..] == log;
  }

  lemma MergedConsAppend(s: DutySegment, xs: seq<DutySegment>, ys: seq<DutySegment>)
    ensures Merged([s] + xs + ys) == Prepend(s, Merged(xs + ys))
  {
    assert [s] + xs + ys == [s] + (xs + ys);
    MergedCons(s, xs + ys);
  }

  lemma Unfold(clock: HosClock, config: HosConfig, leg: nat, now: int)
    requires config.Positive() && leg > 0
    ensures var s := NextSegment(clock, config, leg, now);
            && DrivenIn(s) <= leg
            && var rest := DriveLeg(NextClock(clock, config, leg, now), config, leg - DrivenIn(s), now + s.minutes);
            && DriveLeg(clock, config, leg, now) == Leg([s] + rest.segments, rest.clock, rest.endMin)
            && Merged(DriveLeg(clock, config, leg, now).segments) == Prepend(s, Merged(rest.segments))
  {
    hide DriveLeg, NextSegment, NextClock, Merged, Prepend;
    FirstTurn(clock, config, leg, now);
    var s := NextSegment(clock, config, leg, now);
    MergedCons(s, DriveLeg(NextClock(clock, config, leg, now), config, leg - DrivenIn(s), now + s.minutes).segments);
  }

  /** The chunk chosen after driving `a` of it is exactly what was left of it. */
  lemma ChunkAfterPart(clock: HosClock, config: HosConfig, a: nat, b: nat, now: int)
    requires 0 < a <= RemainingLegalDriveMinutes(clock, config, now) && a <= WeeklyHeadroom(clock, config)
    ensures var s := NextSegment(clock, config, a + b, now);
            && s.kind == Drive && a <= s.minutes <= a + b
            && NextClock(clock, config, a + b, now) == AddDriving(clock, s.minutes)
            && (s.minutes > a ==>
                  && NextSegment(AddDriving(clock, a), config, b, now + a) == DutySegment(Drive, s.minutes - a)
                  && NextClock(AddDriving(clock, a), config, b, now + a) == AddDriving(clock, s.minutes))
  {
  }

  lemma PrependTwice(a: int, b: int, log: seq<DutySegment>)
    ensures Prepend(DutySegment(Drive, a), Prepend(DutySegment(Drive, b), log)) == Prepend(DutySegment(Drive, a + b), log)
  {
  }

  /** Driving a chunk that is legal now in two parts changes nothing but where the segment is cut. */
  lemma SplitInsideChunk(clock: HosClock, config: HosConfig, a: nat, b: nat, now: int)
    requires config.Positive() && 0 < a
    requires a <= RemainingLegalDriveMinutes(clock, config, now) && a <= WeeklyHeadroom(clock, config)
    ensures var whole := DriveLeg(clock, config, a + b, now);
            var second := DriveLeg(AddDriving(clock, a), config, b, now + a);
            && whole.clock == second.clock && whole.endMin == second.endMin
            && Merged(whole.segments) == Prepend(DutySegment(Drive, a), Merged(second.segments))
  {
    hide DriveLeg, Merged, Prepend, AddDriving, RemainingLegalDriveMinutes;
    ChunkAfterPart(clock, config, a, b, now);
    Unfold(clock, config, a + b, now);
    var s := NextSegment(clock, config, a + b, now);
    hide NextSegment, NextClock;
    if s.minutes > a {
      Unfold(AddDriving(clock, a), config, b, now + a);
      PrependTwice(a, s.minutes - a,
                   Merged(DriveLeg(AddDriving(clock, s.minutes), config, a + b - s.minutes, now + s.minutes).segments));
    }
  }

  /** With more minutes to come the first turn is the same, unless it was the last drive of the leg. */
  lemma SameFirstTurn(clock: HosClock, config: HosConfig, a: nat, b: nat, now: int)
    requires config.Positive() && a > 0
    ensures var s := NextSegment(clock, config, a, now);
            if s == DutySegment(Drive, a) then
              && a <= RemainingLegalDriveMinutes(clock, config, now) && a <= WeeklyHeadroom(clock, config)
              && NextClock(clock, config, a, now) == AddDriving(clock, a)
            else NextSegment(clock, config, a + b, now) == s
                 && NextClock(clock, config, a + b, now) == NextClock(clock, config, a, now)
  {
  }

  /** Running the second part from the clock and instant the first part ends with shows the same timeline. */
  ghost predicate CutCommutes(clock: HosClock, config: HosConfig, a: nat, b: nat, now: int)
    requires config.Positive()
  {
    var whole := DriveLeg(clock, config, a + b, now);
    var first := DriveLeg(clock, config, a, now);
    var second := DriveLeg(first.clock, config, b, first.endMin);
    && whole.clock == second.clock && whole.endMin == second.endMin
    && Merged(whole.segments) == Merged(first.segments + second.segments)
  }

  /** A leg may be cut at any minute, for every clock, limit and length. */
  lemma {:induction false} CutAnywhere(clock: HosClock, config: HosConfig, a: nat, b: nat, now: int)
    requires config.Positive()
    ensures CutCommutes(clock, config, a, b, now)
    decreases a, PauseRank(clock, config, now)
  {
    if a == 0 {
      var first, second := DriveLeg(clock, config, a, now), DriveLeg(clock, config, b, now);
      assert first.segments + second.segments == second.segments;
    } else {
      TurnMakesProgress(clock, config, a, now);
      var s := NextSegment(clock, config, a, now);
      hide *;
      if s == DutySegment(Drive, a) {
        CutAtEndOfChunk(clock, config, a, b, now);
      } else {
        CutAfterTurn(clock, config, a, b, now);
        CutAnywhere(NextClock(clock, config, a, now), config, a - DrivenIn(s), b, now + s.minutes);
      }
    }
  }

  /** The cut falls at the end of the drive that this turn labels. */
  lemma CutAtEndOfChunk(clock: HosClock, config: HosConfig, a: nat, b: nat, now: int)
    requires config.Positive() && a > 0 && NextSegment(clock, config, a, now) == DutySegment(Drive, a)
    ensures CutCommutes(clock, config, a, b, now)
  {
    SameFirstTurn(clock, config, a, b, now);
    SplitInsideChunk(clock, config, a, b, now);
    Unfold(clock, config, a, now);
    var next := AddDriving(clock, a);
    assert DriveLeg(next, config, 0, now + a) == Leg([], next, now + a);
    hide NextSegment, NextClock, Merged, Prepend, DriveLeg, AddDriving, RemainingLegalDriveMinutes;
    var second := DriveLeg(next, config, b, now + a);
    assert [DutySegment(Drive, a)] + [] == [DutySegment(Drive, a)];
    MergedCons(DutySegment(Drive, a), second.segments);
  }

  /** The cut falls after this turn, so it may be moved into the rest of the leg. */
  lemma CutAfterTurn(clock: HosClock, config: HosConfig, a: nat, b: nat, now: int)
    requires config.Positive() && a > 0 && NextSegment(clock, config, a, now) != DutySegment(Drive, a)
    ensures var s := NextSegment(clock, config, a, now);
            && DrivenIn(s) <= a
            && (CutCommutes(NextClock(clock, config, a, now), config, a - DrivenIn(s), b, now + s.minutes)
                ==> CutCommutes(clock, config, a, b, now))
  {
    hide NextSegment, NextClock, Merged, Prepend, DriveLeg, RemainingLegalDriveMinutes;
    SameFirstTurn(clock, config, a, b, now);
    Unfold(clock, config, a, now);
    Unfold(clock, config, a + b, now);
    var s := NextSegment(clock, config, a, now);
    var rest := DriveLeg(NextClock(clock, config, a, now), config, a - DrivenIn(s), now + s.minutes);
    var second := DriveLeg(rest.clock, config, b, rest.endMin);
    MergedConsAppend(s, rest.segments, second.segments);
  }

  // ----- The clock after a leg, read off its log ---------------------------------------------

  /** Driving since the last rest of the log, or since `before` minutes if it has none. */
  function DrivenSinceRest(log: seq<DutySegment>, before: int): int {
    if log == [] then before
    else DrivenSinceRest(log[1..], if log[0].kind == Rest then 0 else before + DrivenIn(log[0]))
  }

  function DrivenSincePause(log: seq<DutySegment>, before: int): int {
    if log == [] then before
    else DrivenSincePause(log[1..], if log[0].kind == Drive then before + log[0].minutes else 0)
  }

  /** Driving this week: a rest taken with the week used up starts a new one. */
  function DrivenThisWeek(log: seq<DutySegment>, cap: int, before: int): int {
    if log == [] then before
    else DrivenThisWeek(log[1..], cap, if log[0].kind == Rest && before >= cap then 0 else before + DrivenIn(log[0]))
  }

  /** When the last rest of the log ends, or `before` if it has none. */
  function LastRestEnd(log: seq<DutySegment>, start: int, before: int): int {
    if log == [] then before
    else LastRestEnd(log[1..], start + log[0].minutes, if log[0].kind == Rest then start + log[0].minutes else before)
  }

  ghost predicate HasRest(log: seq<DutySegment>) {
    exists i :: 0 <= i < |log| && log[i].kind == Rest
  }

  /** The clock a log leaves, by what is in the log and nothing else. */
  ghost predicate ReadsOff(clock: HosClock, config: HosConfig, log: seq<DutySegment>, start: int, after: HosClock) {
    && after.driveTodayMin == DrivenSinceRest(log, clock.driveTodayMin)
    && after.sinceLastBreakMin == DrivenSincePause(log, clock.sinceLastBreakMin)
    && after.weeklyOnDutyMin == DrivenThisWeek(log, config.weeklyCapMin, clock.weeklyOnDutyMin)
    && after.dutyWindowStartAt == LastRestEnd(log, start, clock.dutyWindowStartAt)
    && after.comeOnDutyAt == LastRestEnd(log, start, clock.comeOnDutyAt)
    && after.sleeperBerthLongMin == (if HasRest(log) then 0 else clock.sleeperBerthLongMin)
    && after.sleeperBerthShortMin == (if HasRest(log) then 0 else clock.sleeperBerthShortMin)
  }

  lemma ReadsOffOneTurn(clock: HosClock, config: HosConfig, leg: int, now: int, s: DutySegment, rest: seq<DutySegment>, after: HosClock)
    requires s == NextSegment(clock, config, leg, now)
    requires ReadsOff(NextClock(clock, config, leg, now), config, rest, now + s.minutes, after)
    ensures ReadsOff(clock, config, [s] + rest, now, after)
  {
    var log := [s] + rest;
    assert log[1..] == rest && log[0] == s;
    assert HasRest(log) <==> s.kind == Rest || HasRest(rest) by {
      if i :| 0 <= i < |rest| && rest[i].kind == Rest { assert log[i + 1] == rest[i]; }
    }
    hide HasRest, RemainingLegalDriveMinutes;
  }

  /**
   * Whatever the leg, its clock is what the log says: driving since the last rest, the last pause and
   * the last week; on duty, and the window open, since the end of the last rest.
   */
  lemma {:induction false} ClockReadsOffTheLog(clock: HosClock, config: HosConfig, leg: nat, now: int)
    requires config.Positive()
    ensures var r := DriveLeg(clock, config, leg, now); ReadsOff(clock, config, r.segments, now, r.clock)
    decreases leg, PauseRank(clock, config, now)
  {
    hide DriveLeg, NextSegment, NextClock, PauseRank;
    NothingToDrive(clock, config, now);
    if leg > 0 {
      TurnMakesProgress(clock, config, leg, now);
      FirstTurn(clock, config, leg, now);
      var s, next := NextSegment(clock, config, leg, now), NextClock(clock, config, leg, now);
      ClockReadsOffTheLog(next, config, leg - DrivenIn(s), now + s.minutes);
      var rest := DriveLeg(next, config, leg - DrivenIn(s), now + s.minutes);
      hide ReadsOff;
      ReadsOffOneTurn(clock, config, leg, now, s, rest.segments, rest.clock);
    }
  }

  // ----- The default limits ---------------------------------------------------------------------

  lemma OneTurn(clock: HosClock, leg: nat, now: int)
    requires leg > 0
    ensures var s := NextSegment(clock, DEFAULT_HOS_CONFIG, leg, now);
      DriveLeg(clock, DEFAULT_HOS_CONFIG, leg, now).segments
      == [s] + DriveLeg(NextClock(clock, DEFAULT_HOS_CONFIG, leg, now), DEFAULT_HOS_CONFIG, leg - DrivenIn(s), now + s.minutes).segments
  {
    TurnMakesProgress(clock, DEFAULT_HOS_CONFIG, leg, now);
    hide NextSegment, NextClock;
  }

  lemma LastTurn(clock: HosClock, leg: nat, now: int)
    requires 0 < leg <= RemainingLegalDriveMinutes(clock, DEFAULT_HOS_CONFIG, now) && leg <= WeeklyHeadroom(clock, DEFAULT_HOS_CONFIG)
    ensures DriveLeg(clock, DEFAULT_HOS_CONFIG, leg, now).segments == [DutySegment(Drive, leg)]
  {
    OneTurn(clock, leg, now);
    assert NextSegment(clock, DEFAULT_HOS_CONFIG, leg, now) == DutySegment(Drive, leg);
    hide RemainingLegalDriveMinutes, NextSegment, NextClock;
    NothingToDrive(NextClock(clock, DEFAULT_HOS_CONFIG, leg, now), DEFAULT_HOS_CONFIG, now + leg);
  }

  /** A fresh driver's day under the default limits: eight hours, half an hour off, three hours, ten hours off. */
  lemma AFreshDay(leg: nat, now: int)
    requires 0 < leg <= 1140
    ensures DriveLeg(HosClock(0, now, 0, 0, now, 0, 0), DEFAULT_HOS_CONFIG, leg, now).segments ==
      if leg <= 480 then [DutySegment(Drive, leg)]
      else if leg <= 660 then [DutySegment(Drive, 480), DutySegment(Break, 30), DutySegment(Drive, leg - 480)]
      else [DutySegment(Drive, 480), DutySegment(Break, 30), DutySegment(Drive, 180), DutySegment(Rest, 600), DutySegment(Drive, leg - 660)]
  {
    hide DriveLeg;
    var start := HosClock(0, now, 0, 0, now, 0, 0);
    if leg <= 480 {
      LastTurn(start, leg, now);
    } else {
      var tired := HosClock(480, now, 480, 480, now, 0, 0);
      var eased := tired.(sinceLastBreakMin := 0);
      OneTurn(start, leg, now);
      OneTurn(tired, leg - 480, now + 480);
      if leg <= 660 {
        LastTurn(eased, leg - 480, now + 510);
      } else {
        var spent := HosClock(660, now, 180, 660, now, 0, 0);
        OneTurn(eased, leg - 480, now + 510);
        OneTurn(spent, leg - 660, now + 690);
        LastTurn(HosClock(0, now + 1290, 0, 660, now + 1290, 0, 0), leg - 660, now + 1290);
      }
    }
  }

  /** A fresh driver who sets off late has fourteen hours from coming on duty, and seventy in the week. */
  lemma AFreshWindow(late: nat, weekly: int, now: int)
    ensures var clock := HosClock(0, now, 0, weekly, now, 0, 0);
      && RemainingLegalDriveMinutes(clock, DEFAULT_HOS_CONFIG, now + late)
         == (if late <= 360 then 480 else if late <= 840 then 840 - late else 0)
      && (MayDriveNow(clock, DEFAULT_HOS_CONFIG, now + late) <==> late < 840 && weekly < 4200)
      && (weekly >= 4200 ==> NextSegment(clock, DEFAULT_HOS_CONFIG, 1, now + late) == DutySegment(Rest, 2040))
  {
  }
}
