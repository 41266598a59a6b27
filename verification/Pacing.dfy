/**
 * `packages/api/src/sim/pacing.ts`: how far a frame moves the sim clock, and which ticks it drains.
 */
module Pacing {
  const MAX_WALL_DELTA_MS := 1000.0

  /** The clamped wall delta at the sim rate; a paused or stalled frame moves nothing. */
  function SimAdvanceMs(wallDeltaMs: real, multiplier: real, msPerTick: real, defaultIntervalMs: real): (r: real)
    requires defaultIntervalMs != 0.0
  {
    var clamped := if wallDeltaMs < 0.0 then 0.0 else if wallDeltaMs > MAX_WALL_DELTA_MS then MAX_WALL_DELTA_MS else wallDeltaMs;
    clamped * (msPerTick / defaultIntervalMs) * multiplier
  }

  /** A frame never moves the clock back, nor further than one clamped second at its speed. */
  lemma AdvanceIsBounded(wallDeltaMs: real, multiplier: real, msPerTick: real, defaultIntervalMs: real)
    requires multiplier >= 0.0 && msPerTick > 0.0 && defaultIntervalMs > 0.0
    ensures 0.0 <= SimAdvanceMs(wallDeltaMs, multiplier, msPerTick, defaultIntervalMs)
                <= MAX_WALL_DELTA_MS * (msPerTick / defaultIntervalMs) * multiplier
    ensures multiplier == 0.0 || wallDeltaMs <= 0.0 ==> SimAdvanceMs(wallDeltaMs, multiplier, msPerTick, defaultIntervalMs) == 0.0
  {
    var clamped := if wallDeltaMs < 0.0 then 0.0 else if wallDeltaMs > MAX_WALL_DELTA_MS then MAX_WALL_DELTA_MS else wallDeltaMs;
    var rate := msPerTick / defaultIntervalMs;
    PositiveQuotient(msPerTick, defaultIntervalMs);
    Product(clamped, rate);
    Product(MAX_WALL_DELTA_MS - clamped, rate);
    Product(clamped * rate, multiplier);
    Product((MAX_WALL_DELTA_MS - clamped) * rate, multiplier);
    assert (MAX_WALL_DELTA_MS - clamped) * rate * multiplier == MAX_WALL_DELTA_MS * rate * multiplier - clamped * rate * multiplier;
  }

  /**
   * The speed of the clock: the default interval moves it by one tick, and within the clamp it moves in
   * proportion to the wall time and to the multiplier.
   */
  lemma AdvanceIsProportional(a: real, b: real, multiplier: real, msPerTick: real, defaultIntervalMs: real)
    requires 0.0 <= a && 0.0 <= b && a + b <= MAX_WALL_DELTA_MS && defaultIntervalMs > 0.0
    ensures SimAdvanceMs(a, multiplier, msPerTick, defaultIntervalMs) == multiplier * SimAdvanceMs(a, 1.0, msPerTick, defaultIntervalMs)
    ensures SimAdvanceMs(a + b, multiplier, msPerTick, defaultIntervalMs)
         == SimAdvanceMs(a, multiplier, msPerTick, defaultIntervalMs) + SimAdvanceMs(b, multiplier, msPerTick, defaultIntervalMs)
    ensures defaultIntervalMs <= MAX_WALL_DELTA_MS ==> SimAdvanceMs(defaultIntervalMs, 1.0, msPerTick, defaultIntervalMs) == msPerTick
  {
    var rate := msPerTick / defaultIntervalMs;
    Sum(a, b, rate);
    Sum(a * rate, b * rate, multiplier);
    Turned(a * rate, multiplier);
    Divided(msPerTick, defaultIntervalMs);
  }

  lemma Sum(a: real, b: real, k: real)
    ensures (a + b) * k == a * k + b * k
  {
  }

  lemma Turned(x: real, m: real)
    ensures x * m == m * (x * 1.0)
  {
  }

  lemma Divided(a: real, b: real)
    requires b > 0.0
    ensures b * (a / b) * 1.0 == a
  {
  }

  lemma PositiveQuotient(a: real, b: real)
    requires a > 0.0 && b > 0.0
    ensures a / b > 0.0
  {
  }

  lemma Product(a: real, b: real)
    requires a >= 0.0 && b >= 0.0
    ensures a * b >= 0.0
  {
  }

  ghost predicate Ascending(times: seq<real>) {
    forall i, j :: 0 <= i < j < |times| ==> times[i] < times[j]
  }

  /** Exactly the first `n` ticks are due at `clock`. */
  ghost predicate Due(times: seq<real>, n: nat, clock: real) {
    && n <= |times|
    && (forall i :: 0 <= i < n ==> times[i] <= clock)
    && (forall i :: n <= i < |times| ==> times[i] > clock)
  }

  /**
   * Drains the run of due ticks up to the budget. When the budget leaves due ticks behind, the
   * clock is clamped so that exactly the drained ticks are due at the clock reported.
   */
  method SelectDrain(times: seq<real>, nextIndex: nat, simClock: real, maxTicks: nat)
    returns (count: nat, clampSimClock: real)
    requires nextIndex <= |times|
    ensures count <= maxTicks && nextIndex + count <= |times|
    ensures forall i :: nextIndex <= i < nextIndex + count ==> times[i] <= simClock
    ensures count < maxTicks && nextIndex + count < |times| ==> times[nextIndex + count] > simClock
    ensures clampSimClock ==
      if count == maxTicks > 0 && nextIndex + count < |times| && times[nextIndex + count] <= simClock
      then times[nextIndex + count - 1] else simClock
  {
    count := 0;
    var i := nextIndex;
    while i < |times| && count < maxTicks && times[i] <= simClock
      invariant i == nextIndex + count <= |times| && count <= maxTicks
      invariant forall k :: nextIndex <= k < i ==> times[k] <= simClock
    {
      count := count + 1;
      i := i + 1;
    }
    var budgetCapped := count == maxTicks && i < |times| && times[i] <= simClock;
    if budgetCapped && count > 0 {
      return count, times[nextIndex + count - 1];
    }
    clampSimClock := simClock;
  }

  /** From a clock at which `n` ticks were due, a drain at a later clock leaves the two in step again. */
  lemma DrainKeepsStep(times: seq<real>, n: nat, before: real, clock: real, count: nat, maxTicks: nat, clamped: real)
    requires Ascending(times) && Due(times, n, before) && before <= clock && maxTicks >= 1
    requires count <= maxTicks && n + count <= |times|
    requires forall i :: n <= i < n + count ==> times[i] <= clock
    requires count < maxTicks && n + count < |times| ==> times[n + count] > clock
    requires clamped ==
      if count == maxTicks && n + count < |times| && times[n + count] <= clock then times[n + count - 1] else clock
    ensures Due(times, n + count, clamped) && before <= clamped <= clock
  {
    if n + count < |times| {
      forall i | n + count <= i < |times| ensures times[n + count] <= times[i] {}
    }
  }
}
