/** The virtual clock of `packages/simulation/src/clock.ts`, moved only by injected ticks. */
module Clocks {
  datatype Advanced = Moved | RangeError

  type Positive = x: int | 0 < x witness 1

  class VirtualClock {
    const epochMs: int
    const msPerTick: Positive
    var currentMs: int

    ghost predicate Valid()
      reads this
    {
      (currentMs - epochMs) % msPerTick == 0
    }

    /** Whole ticks since the epoch (`currentTick` of the engine). */
    function Tick(): int
      reads this
    {
      (currentMs - epochMs) / msPerTick
    }

    constructor (epochMs: int, msPerTick: Positive)
      ensures Valid() && Tick() == 0
      ensures this.epochMs == epochMs && this.msPerTick == msPerTick
    {
      this.epochMs := epochMs;
      this.msPerTick := msPerTick;
      currentMs := epochMs;
      new;
      assert (currentMs - epochMs) % msPerTick == 0;
    }

    /** A negative count is refused and leaves the clock where it was. */
    method Advance(ticks: int) returns (r: Advanced)
      requires Valid()
      modifies this`currentMs
      ensures Valid()
      ensures r == Moved <==> ticks >= 0
      ensures Tick() == old(Tick()) + if ticks >= 0 then ticks else 0
    {
      if ticks < 0 {
        return RangeError;
      }
      AddTicks(currentMs - epochMs, ticks, msPerTick);
      currentMs := currentMs + ticks * msPerTick;
      r := Moved;
    }
  }

  lemma AddTicks(elapsed: int, ticks: int, msPerTick: int)
    requires 0 < msPerTick && elapsed % msPerTick == 0
    ensures (elapsed + ticks * msPerTick) % msPerTick == 0
    ensures (elapsed + ticks * msPerTick) / msPerTick == elapsed / msPerTick + ticks
  {
    var q := elapsed / msPerTick;
    assert elapsed == q * msPerTick;
    assert elapsed + ticks * msPerTick == (q + ticks) * msPerTick;
    MultipleDivides(q + ticks, msPerTick);
  }

  lemma MultipleDivides(k: int, m: int)
    requires 0 < m
    ensures (k * m) % m == 0 && (k * m) / m == k
  {
    var q, r := (k * m) / m, (k * m) % m;
    assert k * m == q * m + r;
    assert (k - q) * m == r;
    MultipleIsFar(k - q, m);
  }

  lemma MultipleIsFar(a: int, m: int)
    requires 0 < m
    ensures a >= 1 ==> a * m >= m
    ensures a <= -1 ==> a * m <= -m
  {
  }
}
