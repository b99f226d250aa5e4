/** Integers as octets, the lowest octet first. */
module LittleEndian {
  import opened Types

  /** The octets are worth `n`. */
  predicate Is2(b: seq<Byte>, n: nat) {
    |b| == 2 && n == b[0] as int + 0x100 * b[1] as int
  }

  predicate Is4(b: seq<Byte>, n: nat) {
    |b| == 4 && n == b[0] as int + 0x100 * b[1] as int + 0x1_0000 * b[2] as int + 0x100_0000 * b[3] as int
  }

  predicate Is8(b: seq<Byte>, n: nat) {
    && |b| == 8
    && n == b[0] as int + 0x100 * b[1] as int + 0x1_0000 * b[2] as int + 0x100_0000 * b[3] as int
          + 0x1_0000_0000 * b[4] as int + 0x100_0000_0000 * b[5] as int + 0x1_0000_0000_0000 * b[6] as int
          + 0x100_0000_0000_0000 * b[7] as int
  }

  /** The octets of a number that fits. */
  function LE2(n: nat): (b: seq<Byte>)
    requires n < 0x1_0000
    ensures Is2(b, n)
  {
    [n % 0x100, n / 0x100]
  }

  function LE4(n: nat): (b: seq<Byte>)
    requires n < 0x1_0000_0000
    ensures Is4(b, n)
  {
    LE2(n % 0x1_0000) + LE2(n / 0x1_0000)
  }

  function LE8(n: nat): (b: seq<Byte>)
    requires n < 0x1_0000_0000_0000_0000
    ensures Is8(b, n)
  {
    LE4(n % 0x1_0000_0000) + LE4(n / 0x1_0000_0000)
  }
}
