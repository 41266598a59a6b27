/**
 * The seeded generator of `packages/simulation/src/rng.ts`: its whole state is one 32-bit word.
 */
module Generators {
  type Word = bv32

  newtype Uint32 = x: int | 0 <= x < 0x1_0000_0000

  /** A generator is a step on words, an output for each word, and a way to mix a seed. */
  datatype Generator = Generator(advance: Word -> Word, output: Word -> Uint32, mix: Word -> Word)

  /** `int(n)`: the product of the draw in [0, 1) with `n`, rounded down. */
  function Scaled(draw: Uint32, n: nat): (r: nat)
    requires n > 0
    ensures r < n
  {
    ScaledInRange(draw as int, n);
    (draw as int) * n / 0x1_0000_0000
  }

  lemma ScaledInRange(d: int, n: nat)
    requires 0 <= d < 0x1_0000_0000 && n > 0
    ensures 0 <= d * n / 0x1_0000_0000 < n
  {
    assert d * n <= (0x1_0000_0000 - 1) * n;
  }
}
