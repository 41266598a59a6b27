/**
 * The Hours-of-Service engine of `packages/domain/src/hos.ts`.
 *
 * Instants are whole minutes since a fixed epoch (the source converts ISO stamps to
 * and from such minutes at its boundary); durations are whole minutes.
 */
module Hos {

  datatype HosConfig = HosConfig(
    maxDriveMin: int,
    dutyWindowMin: int,
    breakAfterDriveMin: int,
    minBreakMin: int,
    resetOffDutyMin: int,
    weeklyCapMin: int,
    restartMin: int)
  {
    /** What `hosConfigSchema` demands: every limit is a positive number of minutes. */
    predicate Positive() {
      && 0 < maxDriveMin && 0 < dutyWindowMin && 0 < breakAfterDriveMin && 0 < minBreakMin
      && 0 < resetOffDutyMin && 0 < weeklyCapMin && 0 < restartMin
    }
  }

  /** 11h drive, 14h window, 30 min after 8h, 10h reset, 70h cap, 34h restart. */
  const DEFAULT_HOS_CONFIG := HosConfig(660, 840, 480, 30, 600, 4200, 2040)

  datatype HosClock = HosClock(
    driveTodayMin: int,
    dutyWindowStartAt: int,
    sinceLastBreakMin: int,
    weeklyOnDutyMin: int,
    comeOnDutyAt: int,
    sleeperBerthLongMin: int,
    sleeperBerthShortMin: int)

  datatype SegmentKind = Drive | Break | Rest

  datatype DutySegment = DutySegment(kind: SegmentKind, minutes: int)

  function Min(a: int, b: int): int { if a <= b then a else b }

  function Max(a: int, b: int): int { if a >= b then a else b }

  /** The binding minimum of the three clocks before the clamp at zero. */
  function BindingLimit(clock: HosClock, config: HosConfig, now: int): int {
    var byDrive := config.maxDriveMin - clock.driveTodayMin;
    var byWindow := clock.dutyWindowStartAt + config.dutyWindowMin - now;
    var byBreak := config.breakAfterDriveMin - clock.sinceLastBreakMin;
    Min(byDrive, Min(byWindow, byBreak))
  }

  function RemainingLegalDriveMinutes(clock: HosClock, config: HosConfig, now: int): int {
    Max(0, BindingLimit(clock, config, now))
  }

  predicate MayDriveNow(clock: HosClock, config: HosConfig, now: int) {
    && RemainingLegalDriveMinutes(clock, config, now) > 0
    && clock.weeklyOnDutyMin < config.weeklyCapMin
  }

  function WeeklyHeadroom(clock: HosClock, config: HosConfig): int {
    config.weeklyCapMin - clock.weeklyOnDutyMin
  }

  function ApplyOffDutyReset(clock: HosClock, atMin: int, restMin: int, isRestart: bool): HosClock {
    HosClock(0, atMin + restMin, 0, if isRestart then 0 else clock.weeklyOnDutyMin, atMin + restMin, 0, 0)
  }

  function AddDriving(clock: HosClock, chunk: int): HosClock {
    clock.(driveTodayMin := clock.driveTodayMin + chunk,
           sinceLastBreakMin := clock.sinceLastBreakMin + chunk,
           weeklyOnDutyMin := clock.weeklyOnDutyMin + chunk)
  }

  /** One turn of the labelling loop: the segment it appends and the clock it leaves. */
  function NextSegment(clock: HosClock, config: HosConfig, remaining: int, now: int): DutySegment {
    if clock.weeklyOnDutyMin >= config.weeklyCapMin then
      DutySegment(Rest, config.restartMin)
    else
      var canDrive := RemainingLegalDriveMinutes(clock, config, now);
      if canDrive > 0 then
        DutySegment(Drive, Min(canDrive, Min(remaining, WeeklyHeadroom(clock, config))))
      else if config.breakAfterDriveMin - clock.sinceLastBreakMin <= 0 then
        DutySegment(Break, config.minBreakMin)
      else
        DutySegment(Rest, config.resetOffDutyMin)
  }

  function NextClock(clock: HosClock, config: HosConfig, remaining: int, now: int): HosClock {
    if clock.weeklyOnDutyMin >= config.weeklyCapMin then
      ApplyOffDutyReset(clock, now, config.restartMin, true)
    else
      var canDrive := RemainingLegalDriveMinutes(clock, config, now);
      if canDrive > 0 then
        AddDriving(clock, Min(canDrive, Min(remaining, WeeklyHeadroom(clock, config))))
      else if config.breakAfterDriveMin - clock.sinceLastBreakMin <= 0 then
        clock.(sinceLastBreakMin := 0)
      else
        ApplyOffDutyReset(clock, now, config.resetOffDutyMin, false)
  }

  function DrivenIn(s: DutySegment): int { if s.kind == Drive then s.minutes else 0 }

  /** How many pauses can still come before the next drive: the inner termination rank. */
  function PauseRank(clock: HosClock, config: HosConfig, now: int): nat {
    if clock.weeklyOnDutyMin >= config.weeklyCapMin then 1
    else if RemainingLegalDriveMinutes(clock, config, now) > 0 then 0
    else if config.breakAfterDriveMin - clock.sinceLastBreakMin <= 0 then 2
    else 1
  }

  /** Every turn either drives, or pauses and lowers the pause rank. */
  lemma TurnMakesProgress(clock: HosClock, config: HosConfig, remaining: int, now: int)
    requires config.Positive() && remaining > 0
    ensures var s := NextSegment(clock, config, remaining, now);
            var c := NextClock(clock, config, remaining, now);
            && 0 < s.minutes
            && (s.kind == Drive ==> s.minutes <= remaining)
            && (s.kind != Drive ==> PauseRank(c, config, now + s.minutes) < PauseRank(clock, config, now))
  {
  }

  datatype Leg = Leg(segments: seq<DutySegment>, clock: HosClock, endMin: int)

  /** The whole labelling of a leg, as a function of its inputs. */
  function DriveLeg(clock: HosClock, config: HosConfig, remaining: nat, now: int): Leg
    requires config.Positive()
    decreases remaining, PauseRank(clock, config, now)
  {
    if remaining == 0 then Leg([], clock, now)
    else
      TurnMakesProgress(clock, config, remaining, now);
      var s := NextSegment(clock, config, remaining, now);
      var rest := DriveLeg(NextClock(clock, config, remaining, now), config, remaining - DrivenIn(s), now + s.minutes);
      Leg([s] + rest.segments, rest.clock, rest.endMin)
  }

  /** A leg with segments already labelled in front of it. */
  function After(segments: seq<DutySegment>, rest: Leg): Leg {
    Leg(segments + rest.segments, rest.clock, rest.endMin)
  }

  lemma LegUnfolds(segments: seq<DutySegment>, clock: HosClock, config: HosConfig, remaining: nat, now: int)
    requires config.Positive() && remaining > 0
    ensures var s := NextSegment(clock, config, remaining, now);
            && 0 <= remaining - DrivenIn(s)
            && After(segments, DriveLeg(clock, config, remaining, now))
               == After(segments + [s], DriveLeg(NextClock(clock, config, remaining, now), config, remaining - DrivenIn(s), now + s.minutes))
  {
    hide NextSegment, NextClock, PauseRank;
    TurnMakesProgress(clock, config, remaining, now);
  }

  /** The segments labelled so far, the clock and the minutes left continue to exactly `whole`. */
  ghost predicate Continues(whole: Leg, segments: seq<DutySegment>, clock: HosClock, config: HosConfig, remaining: nat, now: int)
    requires config.Positive()
  {
    whole == After(segments, DriveLeg(clock, config, remaining, now))
  }

  /** What a turn appends, the clock it leaves, and the driving it does. */
  predicate TurnIs(clock: HosClock, config: HosConfig, remaining: int, now: int, s: DutySegment, next: HosClock, driven: int) {
    && NextSegment(clock, config, remaining, now) == s && NextClock(clock, config, remaining, now) == next
    && DrivenIn(s) == driven
  }

  lemma Turns(clock: HosClock, config: HosConfig, remaining: int, now: int)
    ensures clock.weeklyOnDutyMin >= config.weeklyCapMin ==>
      TurnIs(clock, config, remaining, now, DutySegment(Rest, config.restartMin), ApplyOffDutyReset(clock, now, config.restartMin, true), 0)
    ensures clock.weeklyOnDutyMin < config.weeklyCapMin && RemainingLegalDriveMinutes(clock, config, now) <= 0 ==>
      if config.breakAfterDriveMin - clock.sinceLastBreakMin <= 0
      then TurnIs(clock, config, remaining, now, DutySegment(Break, config.minBreakMin), clock.(sinceLastBreakMin := 0), 0)
      else TurnIs(clock, config, remaining, now, DutySegment(Rest, config.resetOffDutyMin),
                  ApplyOffDutyReset(clock, now, config.resetOffDutyMin, false), 0)
    ensures clock.weeklyOnDutyMin < config.weeklyCapMin && RemainingLegalDriveMinutes(clock, config, now) > 0 ==>
      var chunk := Min(RemainingLegalDriveMinutes(clock, config, now), Min(remaining, config.weeklyCapMin - clock.weeklyOnDutyMin));
      TurnIs(clock, config, remaining, now, DutySegment(Drive, chunk), AddDriving(clock, chunk), chunk)
  {
  }

  /** A turn taken continues to the same leg, and either drives or lowers the pause rank. */
  lemma TurnTaken(whole: Leg, segments: seq<DutySegment>, clock: HosClock, config: HosConfig, remaining: nat, now: int,
                  s: DutySegment, next: HosClock, driven: int)
    requires config.Positive() && remaining > 0 && Continues(whole, segments, clock, config, remaining, now)
    requires TurnIs(clock, config, remaining, now, s, next, driven)
    ensures 0 <= driven <= remaining && Continues(whole, segments + [s], next, config, remaining - driven, now + s.minutes)
    ensures driven == 0 ==> PauseRank(next, config, now + s.minutes) < PauseRank(clock, config, now)
  {
    hide NextSegment, NextClock, PauseRank, After;
    TurnMakesProgress(clock, config, remaining, now);
    LegUnfolds(segments, clock, config, remaining, now);
  }

  lemma LegStarts(clock: HosClock, config: HosConfig, leg: nat, now: int)
    requires config.Positive()
    ensures Continues(DriveLeg(clock, config, leg, now), [], clock, config, leg, now)
  {
    hide DriveLeg;
  }

  lemma LegEnds(whole: Leg, segments: seq<DutySegment>, clock: HosClock, config: HosConfig, now: int)
    requires config.Positive() && Continues(whole, segments, clock, config, 0, now)
    ensures whole == Leg(segments, clock, now)
  {
    assert segments + [] == segments;
  }

  datatype LegResult = LegOk(leg: Leg) | LegRangeError

  /** The engine itself: a loop over a clock, an instant and the minutes left to drive. */
  method ApplyDrivingLeg(clock: HosClock, config: HosConfig, legMinutes: int, occurredAt: int) returns (r: LegResult)
    requires config.Positive()
    ensures r == if legMinutes < 0 then LegRangeError else LegOk(DriveLeg(clock, config, legMinutes, occurredAt))
  {
    if legMinutes < 0 {
      return LegRangeError;
    }
    hide DriveLeg, PauseRank, TurnIs, RemainingLegalDriveMinutes, ApplyOffDutyReset, AddDriving, Min, Continues;
    ghost var whole := DriveLeg(clock, config, legMinutes, occurredAt);
    LegStarts(clock, config, legMinutes, occurredAt);
    var segments: seq<DutySegment> := [];
    var current := clock;
    var nowMin := occurredAt;
    var remaining: nat := legMinutes;
    while remaining > 0
      invariant Continues(whole, segments, current, config, remaining, nowMin)
      decreases remaining, PauseRank(current, config, nowMin)
    {
      Turns(current, config, remaining, nowMin);
      if current.weeklyOnDutyMin >= config.weeklyCapMin {
        var reset := ApplyOffDutyReset(current, nowMin, config.restartMin, true);
        TurnTaken(whole, segments, current, config, remaining, nowMin, DutySegment(Rest, config.restartMin), reset, 0);
        segments := segments + [DutySegment(Rest, config.restartMin)];
        current := reset;
        nowMin := nowMin + config.restartMin;
        continue;
      }
      var canDrive := RemainingLegalDriveMinutes(current, config, nowMin);
      if canDrive <= 0 {
        var byBreak := config.breakAfterDriveMin - current.sinceLastBreakMin;
        if byBreak <= 0 {
          var rested := current.(sinceLastBreakMin := 0);
          TurnTaken(whole, segments, current, config, remaining, nowMin, DutySegment(Break, config.minBreakMin), rested, 0);
          segments := segments + [DutySegment(Break, config.minBreakMin)];
          current := rested;
          nowMin := nowMin + config.minBreakMin;
        } else {
          var reset := ApplyOffDutyReset(current, nowMin, config.resetOffDutyMin, false);
          TurnTaken(whole, segments, current, config, remaining, nowMin, DutySegment(Rest, config.resetOffDutyMin), reset, 0);
          segments := segments + [DutySegment(Rest, config.resetOffDutyMin)];
          current := reset;
          nowMin := nowMin + config.resetOffDutyMin;
        }
        continue;
      }
      var byWeekly := config.weeklyCapMin - current.weeklyOnDutyMin;
      var chunk := Min(canDrive, Min(remaining, byWeekly));
      var driven := AddDriving(current, chunk);
      TurnTaken(whole, segments, current, config, remaining, nowMin, DutySegment(Drive, chunk), driven, chunk);
      segments := segments + [DutySegment(Drive, chunk)];
      current := driven;
      nowMin := nowMin + chunk;
      remaining := remaining - chunk;
    }
    LegEnds(whole, segments, current, config, nowMin);
    r := LegOk(Leg(segments, current, nowMin));
  }
}
