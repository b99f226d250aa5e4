/** Counters of 64 bits. */
module Counters {
  /** A 64-bit count. */
  function Wrap(n: nat): nat {
    n % 0x1_0000_0000_0000_0000
  }

  lemma WrapUnique(n: nat, k: int, r: nat)
    requires n == 0x1_0000_0000_0000_0000 * k + r && r < 0x1_0000_0000_0000_0000
    ensures Wrap(n) == r
  {
  }

  /** Whole turns of the counter do not show. */
  lemma WrapTurns(n: nat, k: int, x: nat)
    requires n == 0x1_0000_0000_0000_0000 * k + x
    ensures Wrap(n) == Wrap(x)
  {
    WrapUnique(n, k + x / 0x1_0000_0000_0000_0000, x % 0x1_0000_0000_0000_0000);
  }

  lemma WrapAdd(m: nat, n: nat)
    ensures Wrap(Wrap(m) + n) == Wrap(m + n)
  {
    WrapTurns(m + n, m / 0x1_0000_0000_0000_0000, Wrap(m) + n);
  }

  /** It wraps at a multiple of the block size. */
  lemma WrapBlocks(n: nat)
    ensures Wrap(n) % 64 == n % 64
  {
  }

  /** Wrapping first does not change the length in bits. */
  lemma WrapBits(n: nat)
    ensures Wrap(8 * Wrap(n)) == Wrap(8 * n)
  {
    WrapTurns(8 * n, 8 * (n / 0x1_0000_0000_0000_0000), 8 * Wrap(n));
  }
}
