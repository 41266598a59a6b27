/**
 * `packages/simulation/src/rng.ts`: mulberry32 seeded through splitmix32, its captured state, and
 * why a generator rebuilt from a captured word continues the stream it was captured from.
 */
module Rng {
  import opened Generators

  const INCREMENT: Word := 0x6d2b79f5

  /** The splitmix32 finaliser. */
  function MixSeed(seed: Word): Word {
    var z0 := seed + 0x9e3779b9;
    var z1 := (z0 ^ (z0 >> 16)) * 0x21f0aaad;
    var z2 := (z1 ^ (z1 >> 15)) * 0x735a2d97;
    z2 ^ (z2 >> 15)
  }

  /** The mulberry32 output of an already advanced state word. */
  function Scramble(state: Word): Word {
    var t0 := (state ^ (state >> 15)) * (state | 1);
    var t1 := t0 ^ (t0 + (t0 ^ (t0 >> 7)) * (t0 | 61));
    t1 ^ (t1 >> 14)
  }

  // ----- Drawing and resuming --------------------------------------------------------------

  function StateAfter(state: Word, n: nat): Word {
    if n == 0 then state else StateAfter(state, n - 1) + INCREMENT
  }

  function Draws(state: Word, n: nat): seq<Word> {
    if n == 0 then [] else Draws(state, n - 1) + [Scramble(StateAfter(state, n))]
  }

  lemma OneStep(state: Word)
    ensures StateAfter(state, 1) == state + INCREMENT
  {
    assert StateAfter(state, 0) == state;
  }

  lemma {:induction false} StateAfterSum(state: Word, m: nat, n: nat)
    ensures StateAfter(StateAfter(state, m), n) == StateAfter(state, m + n)
  {
    if n > 0 { StateAfterSum(state, m, n - 1); }
  }

  /** A generator rebuilt from the captured word draws exactly what was left to draw. */
  lemma {:induction false} RestoredDrawsTheRest(state: Word, m: nat, n: nat)
    ensures Draws(state, m) + Draws(StateAfter(state, m), n) == Draws(state, m + n)
  {
    hide Scramble;
    if n == 0 {
      assert Draws(state, m) + [] == Draws(state, m);
    } else {
      RestoredDrawsTheRest(state, m, n - 1);
      StateAfterSum(state, m, n);
      assert Draws(state, m) + Draws(StateAfter(state, m), n)
          == (Draws(state, m) + Draws(StateAfter(state, m), n - 1)) + [Scramble(StateAfter(state, m + n))];
    }
  }

  /** The draw as a numerator over 2^32. */
  function Output(state: Word): Uint32 {
    Numerator(Scramble(state))
  }

  function Numerator(draw: Word): Uint32 {
    draw as Uint32
  }

  /** The generator the simulator runs on. */
  function Mulberry32(): Generator {
    Generator((w: Word) => w + INCREMENT, (w: Word) => Output(w), (w: Word) => MixSeed(w))
  }

  /** A bounded draw cuts the 2^32 outputs into that many equal shares, in order. */
  lemma DrawnByShare(draw: Uint32, n: nat, k: nat)
    requires n > 0
    ensures Scaled(draw, n) == k <==> k * 0x1_0000_0000 <= draw as int * n < (k + 1) * 0x1_0000_0000
  {
    var product := draw as int * n;
    assert product == product / 0x1_0000_0000 * 0x1_0000_0000 + product % 0x1_0000_0000;
    if k < product / 0x1_0000_0000 {
      assert (k + 1) * 0x1_0000_0000 <= product / 0x1_0000_0000 * 0x1_0000_0000;
    }
  }

  datatype Drawn<T> = Drawn(value: T) | RangeError

  class SeededRng {
    var state: Word

    /** Positioned at a captured word. */
    constructor FromState(rawState: Word)
      ensures state == rawState
    {
      state := rawState;
    }

    constructor (seed: Word)
      ensures state == MixSeed(seed)
    {
      state := MixSeed(seed);
    }

    /** One draw: the word is overwritten, the output is read off the new word. */
    method Next() returns (draw: Uint32)
      modifies this
      ensures state == StateAfter(old(state), 1) && draw == Output(state)
    {
      hide Scramble, Output, StateAfter;
      OneStep(state);
      state := state + INCREMENT;
      draw := Output(state);
    }

    /** A draw below `maxExclusive`; asking for one below zero or one throws before drawing. */
    method Int(maxExclusive: int) returns (r: Drawn<nat>)
      modifies this
      ensures maxExclusive < 1 ==> r == RangeError && state == old(state)
      ensures maxExclusive >= 1 ==>
        state == StateAfter(old(state), 1) && r == Drawn(Scaled(Output(state), maxExclusive))
    {
      hide Scramble, Output, Scaled, StateAfter;
      if maxExclusive < 1 { return RangeError; }
      var draw := Next();
      r := Drawn(Scaled(draw, maxExclusive));
    }

    method Pick<T>(items: seq<T>) returns (item: Drawn<T>)
      modifies this
      ensures items == [] ==> item == RangeError && state == old(state)
      ensures items != [] ==>
        state == StateAfter(old(state), 1) && item == Drawn(items[Scaled(Output(state), |items|)])
    {
      hide Scramble, Output, Scaled, StateAfter;
      if |items| == 0 { return RangeError; }
      var i := Int(|items|);
      item := Drawn(items[i.value]);
    }

    /** Capturing is a pure read. */
    method GetState() returns (rawState: Word)
      ensures rawState == state
    {
      rawState := state;
    }
  }
}
