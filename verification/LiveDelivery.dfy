/**
 * The paced run of `packages/api/src/sim/driver.ts`: the event stream grouped into ticks, drained a
 * frame at a time as the sim clock reaches them, and handed to the optimizer in batches.
 */
module LiveDelivery {
  import opened SimTypes
  import opened SimTimeline
  import opened SimBooks
  import opened SimRuns
  import opened Generators
  import opened Pacing
  import opened Coalescing

  type Tick = seq<SimEvent>

  // ----- Grouping the stream ------------------------------------------------------------

  function Ticks(stream: seq<SimEvent>): (ticks: seq<Tick>)
    ensures forall t :: t in ticks ==> |t| > 0
    ensures stream == [] <==> ticks == []
  {
    if stream == [] then []
    else
      var n := |stream| - 1;
      var before := Ticks(stream[..n]);
      if n > 0 && stream[n].at == stream[n - 1].at then Extended(before, stream[n]) else before + [[stream[n]]]
  }

  function Extended(ticks: seq<Tick>, e: SimEvent): (r: seq<Tick>)
    requires ticks != [] && forall t :: t in ticks ==> |t| > 0
    ensures |r| == |ticks| && forall t :: t in r ==> |t| > 0
  {
    var grown := ticks[|ticks| - 1] + [e];
    assert |grown| > 0 && forall t :: t in ticks[..|ticks| - 1] ==> t in ticks;
    ticks[..|ticks| - 1] + [grown]
  }

  function Flat(ticks: seq<Tick>): seq<SimEvent> {
    if ticks == [] then [] else Flat(ticks[..|ticks| - 1]) + ticks[|ticks| - 1]
  }

  lemma FlatOneMore(ticks: seq<Tick>, t: Tick)
    ensures Flat(ticks + [t]) == Flat(ticks) + t
  {
    assert (ticks + [t])[..|ticks|] == ticks;
  }

  /** Whether event `i` opens a tick of its own. */
  predicate OpensTick(stream: seq<SimEvent>, i: nat)
    requires i < |stream|
  {
    i == 0 || stream[i].at != stream[i - 1].at
  }

  lemma TicksOneMore(stream: seq<SimEvent>, i: nat)
    requires i < |stream|
    ensures var before := Ticks(stream[..i]);
            && (OpensTick(stream, i) ==> Ticks(stream[..i + 1]) == before + [[stream[i]]])
            && (!OpensTick(stream, i) ==> before != [] && Ticks(stream[..i + 1]) == Extended(before, stream[i]))
  {
    assert stream[..i + 1][..i] == stream[..i];
  }

  lemma AddToOpenTick(ticks: seq<Tick>, e: SimEvent)
    ensures var begun := ticks + [[]]; begun[|ticks| := begun[|ticks|] + [e]] == ticks + [[e]]
    ensures ticks != [] && (forall t :: t in ticks ==> |t| > 0) ==>
              ticks[|ticks| - 1 := ticks[|ticks| - 1] + [e]] == Extended(ticks, e)
  {
    assert [] + [e] == [e];
  }

  method IntoTicks(stream: seq<SimEvent>) returns (ticks: seq<Tick>)
    ensures ticks == Ticks(stream)
  {
    hide Ticks, Extended;
    ticks := [];
    NoTicks();
    for i := 0 to |stream|
      invariant ticks == Ticks(stream[..i])
    {
      TicksOneMore(stream, i);
      AddToOpenTick(ticks, stream[i]);
      if i == 0 || stream[i].at != stream[i - 1].at { ticks := ticks + [[]]; }
      ticks := ticks[|ticks| - 1 := ticks[|ticks| - 1] + [stream[i]]];
    }
    assert stream[..|stream|] == stream;
  }

  lemma NoTicks()
    ensures Ticks([]) == []
  {
  }

  /** Sim milliseconds of an event's instant. */
  const MS_PER_TICK := 60000.0
  const DEFAULT_INTERVAL_MS := 500.0

  function TickTimes(ticks: seq<Tick>): seq<real>
    requires forall t :: t in ticks ==> |t| > 0
  {
    seq(|ticks|, i requires 0 <= i < |ticks| => TickTime(ticks, i))
  }

  function TickTime(ticks: seq<Tick>, i: nat): real
    requires i < |ticks| && forall t :: t in ticks ==> |t| > 0
  {
    assert ticks[i] in ticks;
    ticks[i][0].at as real * MS_PER_TICK
  }

  /** A tick holds events of one instant only. */
  ghost predicate OneInstant(t: Tick) {
    forall i, j :: 0 <= i < |t| && 0 <= j < |t| ==> t[i].at == t[j].at
  }

  lemma GrownTick(t: Tick, e: SimEvent)
    requires |t| > 0 && OneInstant(t) && t[0].at == e.at
    ensures OneInstant(t + [e]) && (t + [e])[0].at == e.at
  {
    assert forall i :: 0 <= i < |t| ==> t[i].at == t[0].at;
  }

  lemma ExtendedFlat(before: seq<Tick>, e: SimEvent)
    requires before != [] && forall t :: t in before ==> |t| > 0
    ensures Flat(Extended(before, e)) == Flat(before) + [e]
  {
    hide Flat;
    var front, last := before[..|before| - 1], before[|before| - 1];
    assert front + [last] == before;
    FlatOneMore(front, last);
    FlatOneMore(front, last + [e]);
    assert Flat(front) + (last + [e]) == Flat(front) + last + [e];
  }

  lemma ExtendedTick(before: seq<Tick>, e: SimEvent)
    requires before != [] && forall t :: t in before ==> |t| > 0 && OneInstant(t)
    requires before[|before| - 1][0].at == e.at
    ensures Flat(Extended(before, e)) == Flat(before) + [e]
    ensures forall t :: t in Extended(before, e) ==> OneInstant(t)
    ensures Extended(before, e)[|before| - 1][0].at == e.at
  {
    ExtendedFlat(before, e);
    hide Flat, OneInstant;
    var last := before[|before| - 1];
    assert last in before && forall t :: t in before[..|before| - 1] ==> t in before;
    GrownTick(last, e);
  }

  lemma {:induction false} TicksAreTheStream(stream: seq<SimEvent>)
    ensures Flat(Ticks(stream)) == stream
    ensures forall t :: t in Ticks(stream) ==> OneInstant(t)
    ensures stream != [] ==> Ticks(stream)[|Ticks(stream)| - 1][0].at == stream[|stream| - 1].at
  {
    hide Extended, OneInstant;
    if stream != [] {
      var n := |stream| - 1;
      var before := Ticks(stream[..n]);
      TicksAreTheStream(stream[..n]);
      assert stream[..n] + [stream[n]] == stream;
      if n > 0 && stream[n].at == stream[n - 1].at {
        ExtendedTick(before, stream[n]);
      } else {
        FlatOneMore(before, [stream[n]]);
        SingleInstant(stream[n]);
      }
    }
  }

  lemma SingleInstant(e: SimEvent)
    ensures OneInstant([e])
  {
  }

  /** The extended last tick keeps the times. */
  lemma ExtendedTimes(before: seq<Tick>, e: SimEvent)
    requires before != [] && forall t :: t in before ==> |t| > 0
    ensures TickTimes(Extended(before, e)) == TickTimes(before)
  {
    assert before[|before| - 1] in before;
    forall i | 0 <= i < |before| ensures TickTimes(Extended(before, e))[i] == TickTimes(before)[i] {}
  }

  lemma AppendedTimes(before: seq<Tick>, e: SimEvent)
    requires forall t :: t in before ==> |t| > 0
    ensures forall t :: t in before + [[e]] ==> |t| > 0
    ensures TickTimes(before + [[e]]) == TickTimes(before) + [e.at as real * MS_PER_TICK]
  {
  }

  /** A stream in time order has strictly ascending tick times. */
  lemma {:induction false} TickTimesAscend(stream: seq<SimEvent>)
    requires InTimeOrder(stream)
    ensures Ascending(TickTimes(Ticks(stream)))
  {
    hide TickTimes, Extended, Flat, OneInstant;
    if stream == [] {
      NoTimes();
    } else {
      var n := |stream| - 1;
      var before := Ticks(stream[..n]);
      TickTimesAscend(stream[..n]);
      TicksAreTheStream(stream[..n]);
      if n > 0 && stream[n].at == stream[n - 1].at {
        ExtendedTimes(before, stream[n]);
      } else {
        AppendedTimes(before, stream[n]);
        if n > 0 {
          assert stream[n - 1].at <= stream[n].at;
          LastTime(before);
          LastIsLatest(TickTimes(before), stream[n - 1].at, stream[n].at);
        } else {
          NoTimes();
        }
      }
    }
  }

  lemma NoTimes()
    ensures TickTimes([]) == []
  {
  }

  lemma LastTime(ticks: seq<Tick>)
    requires ticks != [] && forall t :: t in ticks ==> |t| > 0
    ensures |TickTimes(ticks)| == |ticks|
    ensures ticks[|ticks| - 1] in ticks && TickTimes(ticks)[|ticks| - 1] == ticks[|ticks| - 1][0].at as real * MS_PER_TICK
  {
  }

  lemma LastIsLatest(times: seq<real>, last: int, next: int)
    requires Ascending(times) && times != [] && times[|times| - 1] == last as real * MS_PER_TICK && last < next
    ensures forall i :: 0 <= i < |times| ==> times[i] < next as real * MS_PER_TICK
  {
    assert last as real * MS_PER_TICK < next as real * MS_PER_TICK;
  }

  /** The simulator's own output is such a stream. */
  lemma SimulatedTicksAscend(env: Env, seed: Word, horizon: nat)
    requires env.Ok()
    ensures var events := RunToHorizon(env, FreshStart(seed), horizon).events;
      Ascending(TickTimes(Ticks(events))) && Flat(Ticks(events)) == events
  {
    hide Ticks, TickTimes, After, RunToHorizon;
    RunIsReachable(env, seed, horizon);
    var events := RunToHorizon(env, FreshStart(seed), horizon).events;
    var n :| After(env, seed, n).log == events;
    InvariantsHold(env, seed, n);
    TickTimesAscend(events);
    TicksAreTheStream(events);
  }

  // ----- The frame loop ----------------------------------------------------------------------

  function AdvanceOf(wallDeltaMs: real, multiplier: real, paused: bool): real {
    SimAdvanceMs(wallDeltaMs, if paused then 0.0 else multiplier, MS_PER_TICK, DEFAULT_INTERVAL_MS)
  }

  /** Half a second at speed one is a minute of the simulation; a frame counts for a second at most, paused for nothing. */
  lemma LiveSpeed(wallDeltaMs: real, multiplier: real, paused: bool)
    ensures paused ==> AdvanceOf(wallDeltaMs, multiplier, paused) == 0.0
    ensures !paused && 0.0 <= wallDeltaMs <= 1000.0 ==> AdvanceOf(wallDeltaMs, multiplier, paused) == 120.0 * wallDeltaMs * multiplier
    ensures !paused && wallDeltaMs > 1000.0 ==> AdvanceOf(wallDeltaMs, multiplier, paused) == AdvanceOf(1000.0, multiplier, false)
  {
    assert MS_PER_TICK / DEFAULT_INTERVAL_MS == 120.0;
  }

  function Frames(inputs: seq<Input>): nat {
    if inputs == [] then 0 else Frames(inputs[..|inputs| - 1]) + if inputs[|inputs| - 1].Frame? then 1 else 0
  }

  /** Every frame would move the clock by at least `step`. */
  ghost predicate Advancing(inputs: seq<Input>, step: real) {
    0.0 <= step && forall i :: 0 <= i < |inputs| && inputs[i].Frame? ==>
      step <= AdvanceOf(inputs[i].wallDeltaMs, inputs[i].multiplier, inputs[i].paused)
  }

  /** All frames but those that drained a tick moved the clock by `step`. */
  predicate Gained(frames: nat, step: real, drained: int, advanced: real) { (frames - drained) as real * step <= advanced }

  lemma NothingGained(step: real)
    ensures Gained(0, step, 0, 0.0) && Frames([]) == 0
  {
  }

  lemma FramesOneMore(inputs: seq<Input>, i: nat)
    requires i < |inputs|
    ensures Frames(inputs[..i + 1]) == Frames(inputs[..i]) + if inputs[i].Frame? then 1 else 0
  {
    assert inputs[..i + 1][..i] == inputs[..i];
  }

  lemma FrameGains(frames: nat, step: real, drained: int, advanced: real, drained': int, advanced': real)
    requires Gained(frames, step, drained, advanced) && 0.0 <= step && drained <= drained' && advanced <= advanced'
    requires drained < drained' || advanced + step <= advanced'
    ensures Gained(frames + 1, step, drained', advanced')
  {
    var before, after := (frames - drained) as real, (frames + 1 - drained') as real;
    if drained < drained' {
      Product(before - after, step);
      assert before * step == after * step + (before - after) * step;
    } else {
      assert after == before + 1.0 && after * step == before * step + step;
    }
  }

  predicate SettlesTwice(inputs: seq<Input>) {
    |inputs| >= 2 && inputs[|inputs| - 1].Settle? && inputs[|inputs| - 2].Settle?
  }

  /** One wall-clock frame as measured, or the optimizer job in flight settling. */
  datatype Input = Frame(wallDeltaMs: real, multiplier: real, paused: bool) | Settle

  class PacedDriver {
    const ticks: seq<Tick>
    const times: seq<real>
    const maxTicksPerFrame: nat
    const optEvery: nat
    const coalescer: CoalescedRunner<SimEvent>
    var simClock: real
    var nextIndex: nat
    var ticksSinceOpt: nat
    var pendingOptEvents: seq<SimEvent>
    var lastOptTickMs: real
    /** The ticks appended to the store and the clocks broadcast, in order. */
    var appended: seq<Tick>
    var broadcasts: seq<real>

    ghost predicate Timely()
      reads this
    {
      && |times| == |ticks| && maxTicksPerFrame >= 1 && optEvery >= 1
      && Ascending(times) && Due(times, nextIndex, simClock)
      && appended == ticks[..nextIndex]
      && (forall i, j :: 0 <= i < j < |broadcasts| ==> broadcasts[i] <= broadcasts[j])
      && (forall i :: 0 <= i < |broadcasts| ==> broadcasts[i] <= simClock)
    }

    ghost predicate Batched()
      reads this, coalescer
    {
      && coalescer.Valid()
      && coalescer.triggered + pendingOptEvents == Flat(appended)
      && (nextIndex == |ticks| ==> pendingOptEvents == [])
      && ticksSinceOpt < optEvery
    }

    ghost predicate Valid()
      reads this, coalescer
    {
      Timely() && Batched()
    }

    /** The clock starts just before the first tick, so that nothing is due yet. */
    constructor (stream: seq<SimEvent>, maxTicksPerFrame: int, optimizerEveryTicks: int)
      requires InTimeOrder(stream)
      ensures Valid() && nextIndex == 0 && ticks == Ticks(stream) && times == TickTimes(ticks)
      ensures coalescer.triggered == [] && fresh(coalescer)
      ensures simClock == if |times| > 0 then times[0] - 1.0 else 0.0
    {
      var grouped := IntoTicks(stream);
      var firstTimes := TickTimes(grouped);
      ticks := grouped;
      times := firstTimes;
      this.maxTicksPerFrame := if maxTicksPerFrame >= 1 then maxTicksPerFrame else 1;
      optEvery := if optimizerEveryTicks >= 1 then optimizerEveryTicks else 1;
      coalescer := new CoalescedRunner<SimEvent>();
      simClock := if |firstTimes| > 0 then firstTimes[0] - 1.0 else 0.0;
      nextIndex, ticksSinceOpt, pendingOptEvents, lastOptTickMs, appended, broadcasts := 0, 0, [], 0.0, [], [];
      new;
      TickTimesAscend(stream);
    }

    /** A frame that drained `count` ticks hands its batch over at the landmark, and at the last tick. */
    ghost predicate HandsOver(count: nat, sinceOpt: nat)
      reads this
    {
      count > 0 && (sinceOpt + count >= optEvery || nextIndex == |ticks|)
    }

    /** The batch went out, or waits to go out, under this sim time. */
    ghost predicate HandedAt(simMs: real, wasBusy: bool)
      reads coalescer
    {
      if wasBusy then coalescer.hasPending && coalescer.pendingSimMs == simMs
      else coalescer.jobs != [] && coalescer.jobs[|coalescer.jobs| - 1].simMs == simMs
    }

    /** Appends `count` ticks in order and fires the optimizer at its landmark. */
    method DrainFrame(count: nat, clampSimClock: real) returns (broadcastSimMs: real)
      requires nextIndex + count <= |ticks| == |times| && optEvery >= 1
      requires Batched() && appended == ticks[..nextIndex]
      modifies this`nextIndex, this`ticksSinceOpt, this`pendingOptEvents, this`lastOptTickMs, this`appended, coalescer
      ensures nextIndex == old(nextIndex) + count && appended == ticks[..nextIndex] && Batched()
      ensures broadcastSimMs == if count == 0 then clampSimClock else times[nextIndex - 1]
      ensures coalescer.settled == old(coalescer.settled)
      ensures HandsOver(count, old(ticksSinceOpt)) ==>
        && coalescer.triggered == Flat(appended) && pendingOptEvents == [] && ticksSinceOpt == 0
        && HandedAt(times[nextIndex - 1], old(coalescer.busy))
      ensures !HandsOver(count, old(ticksSinceOpt)) ==>
        && coalescer.triggered == old(coalescer.triggered) && ticksSinceOpt == old(ticksSinceOpt) + count
        && coalescer.jobs == old(coalescer.jobs) && coalescer.busy == old(coalescer.busy)
    {
      hide Ticks, Flat, Handed, TickTimes;
      broadcastSimMs := clampSimClock;
      if count == 0 { return; }
      ghost var start := nextIndex;
      for k := 0 to count
        invariant nextIndex == start + k && appended == ticks[..nextIndex]
        invariant coalescer.Valid() && coalescer.triggered + pendingOptEvents == Flat(appended)
        invariant coalescer.settled == old(coalescer.settled) && coalescer.triggered == old(coalescer.triggered)
        invariant coalescer.jobs == old(coalescer.jobs) && coalescer.busy == old(coalescer.busy)
        invariant k > 0 ==> lastOptTickMs == times[nextIndex - 1]
        invariant ticksSinceOpt == old(ticksSinceOpt) && (k > 0 ==> broadcastSimMs == times[nextIndex - 1])
      {
        var tick := ticks[nextIndex];
        FlatOneMore(appended, tick);
        appended := appended + [tick];
        pendingOptEvents := pendingOptEvents + tick;
        lastOptTickMs := times[nextIndex];
        broadcastSimMs := times[nextIndex];
        nextIndex := nextIndex + 1;
      }
      ticksSinceOpt := ticksSinceOpt + count;
      if ticksSinceOpt >= optEvery || nextIndex >= |ticks| {
        coalescer.Trigger(pendingOptEvents, lastOptTickMs);
        pendingOptEvents := [];
        ticksSinceOpt := 0;
      }
    }

    /** One frame of the loop, which runs only while ticks remain. */
    method RunFrame(wallDeltaMs: real, multiplier: real, paused: bool)
      requires Valid() && nextIndex < |ticks| && multiplier >= 0.0
      modifies this, coalescer
      ensures Valid() && old(simClock) <= simClock && old(nextIndex) <= nextIndex
      ensures nextIndex - old(nextIndex) <= maxTicksPerFrame
      ensures paused ==> nextIndex == old(nextIndex) && simClock == old(simClock)
      ensures broadcasts == old(broadcasts) + [if old(nextIndex) < nextIndex then times[nextIndex - 1] else simClock]
      ensures coalescer.settled == old(coalescer.settled)
      ensures old(nextIndex) < nextIndex || simClock == old(simClock) + AdvanceOf(wallDeltaMs, multiplier, paused)
    {
      var speed := if paused then 0.0 else multiplier;
      AdvanceIsBounded(wallDeltaMs, speed, MS_PER_TICK, DEFAULT_INTERVAL_MS);
      ghost var before := simClock;
      var advanced := simClock + SimAdvanceMs(wallDeltaMs, speed, MS_PER_TICK, DEFAULT_INTERVAL_MS);
      var count, clamped := SelectDrain(times, nextIndex, advanced, maxTicksPerFrame);
      DrainKeepsStep(times, nextIndex, before, advanced, count, maxTicksPerFrame, clamped);
      simClock := clamped;
      var broadcastSimMs := DrainFrame(count, simClock);
      broadcasts := broadcasts + [broadcastSimMs];
    }

    /**
     * Any sequence of frames and optimizer settlements, up to where the stream has drained. If every
     * frame would move the clock by at least `step`, each either does so or drains a tick; and two
     * settlements in a row leave the optimizer idle.
     */
    method Drive(inputs: seq<Input>, ghost step: real)
      requires Valid() && forall i :: i in inputs ==> i.Frame? ==> i.multiplier >= 0.0
      modifies this, coalescer
      ensures Valid() && old(simClock) <= simClock && old(nextIndex) <= nextIndex
      ensures Advancing(inputs, step) ==>
        Gained(Frames(inputs), step, nextIndex - old(nextIndex), simClock - old(simClock)) || nextIndex == |ticks|
      ensures SettlesTwice(inputs) ==> !coalescer.busy
    {
      hide Flat, Handed, Ticks, TickTimes, Gained, Frames, Timely, Batched, AdvanceOf;
      NothingGained(step);
      for i := 0 to |inputs|
        invariant Valid() && old(simClock) <= simClock && old(nextIndex) <= nextIndex
        invariant Advancing(inputs, step) ==>
          Gained(Frames(inputs[..i]), step, nextIndex - old(nextIndex), simClock - old(simClock)) || nextIndex == |ticks|
        invariant i >= 1 && inputs[i - 1].Settle? ==> !coalescer.hasPending
        invariant SettlesTwice(inputs[..i]) ==> !coalescer.busy
      {
        assert inputs[i] in inputs;
        FramesOneMore(inputs, i);
        ghost var drained, advanced := nextIndex - old(nextIndex), simClock - old(simClock);
        Take(inputs[i]);
        if Advancing(inputs, step) && inputs[i].Frame? && drained + old(nextIndex) < |ticks| {
          FrameGains(Frames(inputs[..i]), step, drained, advanced, nextIndex - old(nextIndex), simClock - old(simClock));
        }
      }
      assert inputs[..|inputs|] == inputs;
    }

    /** One input; a frame is taken only while ticks remain, a settlement only while a job is in flight. */
    method Take(input: Input)
      requires Valid() && (input.Frame? ==> input.multiplier >= 0.0)
      modifies this, coalescer
      ensures Valid() && old(simClock) <= simClock && old(nextIndex) <= nextIndex <= |ticks|
      ensures input.Frame? && old(nextIndex) < |ticks| ==>
        old(nextIndex) < nextIndex || simClock == old(simClock) + AdvanceOf(input.wallDeltaMs, input.multiplier, input.paused)
      ensures input.Settle? ==>
        && nextIndex == old(nextIndex) && simClock == old(simClock)
        && !coalescer.hasPending && (!old(coalescer.hasPending) ==> !coalescer.busy)
    {
      hide Flat, Handed, Ticks, TickTimes, AdvanceOf;
      match input
      case Frame(wallDeltaMs, multiplier, paused) =>
        if nextIndex < |ticks| { RunFrame(wallDeltaMs, multiplier, paused); }
      case Settle =>
        if coalescer.busy { coalescer.OnSettle(); }
    }

    /** The end of the run: once the stream has drained and the coalescer is idle, a last broadcast. */
    method Finish() returns (done: bool)
      requires Valid()
      modifies `broadcasts, coalescer`idleWaiters
      ensures Valid()
      ensures done <==> nextIndex == |ticks| && !coalescer.busy
      ensures done ==> appended == ticks && Handed(coalescer.jobs) == Flat(ticks)
    {
      hide Ticks, Flat, Handed, TickTimes;
      if nextIndex < |ticks| { return false; }
      done := coalescer.WhenIdle();
      if done { broadcasts := broadcasts + [simClock]; }
    }
  }

  /** Enough frames for the stream: one for each tick, and one for each step up to the last tick's time. */
  predicate EnoughFrames(inputs: seq<Input>, step: real, times: seq<real>) {
    step > 0.0 && (times != [] ==>
      (Frames(inputs) - |times|) as real * step >= times[|times| - 1] - times[0] + 1.0)
  }

  /** While a tick is left, the frames have not been enough. */
  lemma NotEnoughYet(inputs: seq<Input>, times: seq<real>, n: nat, clock: real, step: real)
    requires n < |times| && Due(times, n, clock)
    requires Gained(Frames(inputs), step, n, clock - (times[0] - 1.0))
    ensures !EnoughFrames(inputs, step, times)
  {
    hide Frames;
    if step > 0.0 {
      var frames := Frames(inputs);
      assert times[|times| - 1] > clock;
      Product((|times| - n) as real, step);
      assert (frames - n) as real * step == (frames - |times|) as real * step + (|times| - n) as real * step;
    }
  }

  /**
   * A whole paced run over any frames: whatever was drained is exactly what was due, and if the run
   * ends the optimizer has been handed the source events, all of them, once and in order. It does end
   * once enough frames have moved the clock by some step each and two jobs in a row have settled.
   */
  method DriveSimulationPaced(stream: seq<SimEvent>, maxTicksPerFrame: int, optimizerEveryTicks: int, inputs: seq<Input>,
                              ghost step: real)
    returns (driver: PacedDriver, done: bool)
    requires InTimeOrder(stream) && forall i :: i in inputs ==> i.Frame? ==> i.multiplier >= 0.0
    ensures driver.Valid() && driver.ticks == Ticks(stream) && driver.times == TickTimes(driver.ticks)
    ensures Due(driver.times, driver.nextIndex, driver.simClock) && driver.appended == driver.ticks[..driver.nextIndex]
    ensures done ==> Flat(driver.appended) == stream && Handed(driver.coalescer.jobs) == stream
    ensures Advancing(inputs, step) && EnoughFrames(inputs, step, driver.times) && SettlesTwice(inputs) ==> done
  {
    hide Ticks, Flat, TickTimes, Handed, Advancing, Frames, Gained, EnoughFrames, Ascending, InTimeOrder, SettlesTwice;
    driver := new PacedDriver(stream, maxTicksPerFrame, optimizerEveryTicks);
    driver.Drive(inputs, step);
    if Advancing(inputs, step) && driver.nextIndex < |driver.ticks| {
      NotEnoughYet(inputs, driver.times, driver.nextIndex, driver.simClock, step);
    }
    done := driver.Finish();
    TicksAreTheStream(stream);
  }
}
