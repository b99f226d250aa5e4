/**
 * The buffered hashers: "Write" and "Finalize" of SHA-256 and RIPEMD-160, which differ in
 * the compression they call, in the byte order of the length and in how they write the
 * state out.
 */
module Streaming {
  import opened BitStrings
  import opened Blocks
  import opened Counters
  import opened Words

  lemma ShortSum(m: nat, n: nat)
    requires m % 64 + n < 64
    ensures (m + n) % 64 == m % 64 + n
  {
  }

  lemma FullSum(m: nat, n: nat)
    requires m % 64 + n == 64
    ensures (m + n) % 64 == 0
  {
  }

  /** How many zero octets section 5.1.1 of FIPS 180-4 asks for. */
  function PadZeros(n: nat): nat {
    (119 - n % 64) % 64
  }

  /** It is the least number that brings the message and its 0x80 to 56 modulo 64. */
  lemma PadZerosLeast(n: nat, j: nat)
    ensures (n + 1 + PadZeros(n)) % 64 == 56
    ensures (n + 1 + j) % 64 == 56 ==> PadZeros(n) <= j
  {
    var a, q := n / 64, n % 64;
    assert n + 1 + j == 64 * a + (q + 1 + j);
    assert n + 1 + PadZeros(n) == 64 * a + (q + 1 + PadZeros(n));
  }

  /** A message with its padding, the length field in a given byte order. */
  function Padded(lengthField: nat -> seq<Octet>, m: seq<Octet>): seq<Octet> {
    m + ([0x80] + Zeros(PadZeros(|m|))) + lengthField(Wrap(8 * |m|))
  }

  lemma PaddedWhole(lengthField: nat -> seq<Octet>, m: seq<Octet>)
    requires |lengthField(Wrap(8 * |m|))| == 8
    ensures |Padded(lengthField, m)| % 64 == 0
  {
    hide PadZeros, Wrap;
    PadZerosLeast(|m|, 0);
    var n := |m| + 1 + PadZeros(|m|);
    assert n + 8 == 64 * (n / 64) + 64;
    assert |Padded(lengthField, m)| == n + 8;
  }

  /** Bit by bit: the message, a one, as few zeros as bring it to a whole number of blocks, the length. */
  lemma {:induction false} PaddedBits(lengthField: nat -> seq<Octet>, m: seq<Octet>, j: nat)
    requires |lengthField(Wrap(8 * |m|))| == 8
    ensures
      var k := 8 * PadZeros(|m|) + 7;
      && Bits(true, Padded(lengthField, m))
           == Bits(true, m) + [true] + Falses(k) + Bits(true, lengthField(Wrap(8 * |m|)))
      && (8 * |m| + 1 + k + 64) % 512 == 0
      && ((8 * |m| + 1 + j + 64) % 512 == 0 ==> k <= j)
  {
    hide Bits, Falses, PadZeros, Wrap, Padded;
    PaddedPieces(lengthField, m);
    FewestZeros(|m|, j);
  }

  lemma {:induction false} PaddedPieces(lengthField: nat -> seq<Octet>, m: seq<Octet>)
    requires |lengthField(Wrap(8 * |m|))| == 8
    ensures Bits(true, Padded(lengthField, m))
              == Bits(true, m) + [true] + Falses(8 * PadZeros(|m|) + 7) + Bits(true, lengthField(Wrap(8 * |m|)))
  {
    hide Bits, BitsOf, Falses, Zeros, PadZeros, Wrap;
    var z, field := PadZeros(|m|), lengthField(Wrap(8 * |m|));
    BitsJoin(true, m + ([0x80] + Zeros(z)), field);
    BitsJoin(true, m, [0x80] + Zeros(z));
    BitsJoin(true, [0x80], Zeros(z));
    BitsOfZeros(true, z);
    MarkerBits();
    FalsesSplit(7, 8 * z);
    Regrouped(Bits(true, m), Falses(7), Falses(8 * z));
  }

  lemma Regrouped(a: seq<bool>, b: seq<bool>, c: seq<bool>)
    ensures a + ([true] + b + c) == a + [true] + (b + c)
  {
  }

  lemma MarkerBits()
    ensures Bits(true, [0x80]) == [true] + Falses(7)
  {
    hide Bits;
    SingleBits(true, 0x80);
    FewFalses();
  }

  lemma FewestZeros(n: nat, j: nat)
    ensures (8 * n + 1 + (8 * PadZeros(n) + 7) + 64) % 512 == 0
    ensures (8 * n + 1 + j + 64) % 512 == 0 ==> 8 * PadZeros(n) + 7 <= j
  {
    assert PadZeros(n) < 64;
    hide PadZeros;
    PadZerosLeast(n, 0);
    LeastOfBits(n, PadZeros(n), j);
  }

  lemma LeastOfBits(n: nat, z: nat, j: nat)
    requires z < 64 && (n + 9 + z) % 64 == 0
    ensures (8 * n + 72 + 8 * z) % 512 == 0
    ensures (8 * n + 65 + j) % 512 == 0 ==> 8 * z + 7 <= j
  {
    var a := (n + 9 + z) / 64;
    assert 8 * n + 72 + 8 * z == 512 * a;
    var b := (8 * n + 65 + j) / 512;
    if (8 * n + 65 + j) % 512 == 0 {
      assert j == 512 * (b - a) + (8 * z + 7);
    }
  }

  function LengthBE(n: nat): (b: seq<Octet>)
    ensures |b| == 8
  {
    OctetsBE(n, 8)
  }

  function LengthLE(n: nat): (b: seq<Octet>)
    ensures |b| == 8
  {
    OctetsLE(n, 8)
  }

  /** Below 2^61 octets the last eight octets are the message's length in bits. */
  lemma LengthFieldExact(m: seq<Octet>)
    requires |m| < 0x2000_0000_0000_0000
    ensures var p := Padded(LengthBE, m); |p| >= 8 && ValueBE(p[|p| - 8..]) == 8 * |m|
    ensures var p := Padded(LengthLE, m); |p| >= 8 && ValueLE(p[|p| - 8..]) == 8 * |m|
  {
    hide OctetsBE, OctetsLE, ValueBE, ValueLE, Zeros, PadZeros, Wrap;
    Power256Of8();
    WrapUnique(8 * |m|, 0, 8 * |m|);
    ValueBEBack(8 * |m|, 8);
    ValueLEBack(8 * |m|, 8);
    var p := Padded(LengthBE, m);
    assert p[|p| - 8..] == LengthBE(8 * |m|);
    var q := Padded(LengthLE, m);
    assert q[|q| - 8..] == LengthLE(8 * |m|);
  }

  /** "CSHA256" and "CRIPEMD160". */
  class Hasher<S> {
    const compress: (S, seq<Octet>) -> S
    const lengthField: nat -> seq<Octet>
    const output: S -> seq<Octet>
    const initial: S
    var s: S
    const buf: array<Octet>
    var bytes: nat
    /** Everything written so far. */
    ghost var written: seq<Octet>

    ghost predicate Valid()
      reads this, buf
    {
      && buf.Length == 64
      && bytes == Wrap(|written|)
      && s == Absorb(64, compress, initial, written)
      && buf[..bytes % 64] == Rest(64, written)
    }

    constructor (compress: (S, seq<Octet>) -> S, lengthField: nat -> seq<Octet>, output: S -> seq<Octet>, initial: S)
      ensures Valid() && fresh(buf) && written == []
      ensures this.compress == compress && this.lengthField == lengthField
      ensures this.output == output && this.initial == initial
    {
      this.compress, this.lengthField, this.output, this.initial := compress, lengthField, output, initial;
      s := initial;
      buf := new Octet[64];
      bytes := 0;
      written := [];
    }

    /** Completes the buffered block and compresses it. */
    method FillBlock(data: seq<Octet>)
      requires Valid() && |data| > 0 && bytes % 64 + |data| == 64
      modifies this, buf
      ensures Valid() && written == old(written) + data && bytes % 64 == 0
    {
      hide Absorb, Rest, Wrap;
      WrapAdd(|written|, |data|);
      WrapBlocks(|written|);
      WrapBlocks(|written| + |data|);
      FullSum(|written|, |data|);
      AbsorbFill(64, compress, initial, written, data);
      Put(buf, bytes % 64, data);
      assert buf[..] == buf[..64];
      bytes := Wrap(bytes + |data|);
      s := compress(s, buf[..]);
      written := written + data;
    }

    /** Compresses a block straight from the data: the buffer is empty. */
    method WholeBlock(data: seq<Octet>)
      requires Valid() && |data| == 64 && bytes % 64 == 0
      modifies this
      ensures Valid() && written == old(written) + data && bytes % 64 == 0
    {
      hide Absorb, Rest, Wrap;
      WrapAdd(|written|, |data|);
      WrapBlocks(|written|);
      WrapBlocks(|written| + |data|);
      Rest64Length(written);
      FullSum(|written|, |data|);
      AbsorbFill(64, compress, initial, written, data);
      assert [] + data == data;
      s := compress(s, data);
      bytes := Wrap(bytes + 64);
      written := written + data;
    }

    /** Keeps what fills no block. */
    method Keep(data: seq<Octet>)
      requires Valid() && bytes % 64 + |data| < 64
      modifies this, buf
      ensures Valid() && written == old(written) + data
    {
      hide Absorb, Rest, Wrap;
      WrapAdd(|written|, |data|);
      WrapBlocks(|written|);
      WrapBlocks(|written| + |data|);
      Rest64Length(written);
      ShortSum(|written|, |data|);
      AbsorbShort(64, compress, initial, written, data);
      Put(buf, bytes % 64, data);
      bytes := Wrap(bytes + |data|);
      written := written + data;
    }

    /** Only the octets matter, not how they are split into calls. */
    method Write(data: seq<Octet>)
      requires Valid()
      modifies this, buf
      ensures Valid() && written == old(written) + data
    {
      hide Absorb, Rest;
      var at := 0;
      var bufsize := bytes % 64;
      if bufsize != 0 && bufsize + |data| >= 64 {
        at := 64 - bufsize;
        FillBlock(data[..at]);
        bufsize := 0;
      }
      assert written == old(written) + data[..at];
      while |data| >= at + 64
        invariant 0 <= at <= |data|
        invariant Valid() && written == old(written) + data[..at]
        invariant bufsize == bytes % 64
        invariant bufsize == 0 || bufsize + (|data| - at) < 64
      {
        WholeBlock(data[at..at + 64]);
        at := at + 64;
        assert data[..at] == data[..at - 64] + data[at - 64..at];
      }
      assert data[..at] + data[at..] == data;
      if |data| > at {
        Keep(data[at..]);
      } else {
        assert data[..at] == data;
      }
    }

    /** The digest of what was written: exactly the padded message has been compressed,
        in whole blocks. */
    method Finalize() returns (hash: seq<Octet>)
      requires Valid()
      requires forall n :: |lengthField(n)| == 8
      modifies this, buf
      ensures Valid() && written == Padded(lengthField, old(written))
      ensures |written| % 64 == 0 && bytes % 64 == 0
      ensures s == Absorb(64, compress, initial, Padded(lengthField, old(written)))
      ensures hash == output(s)
    {
      hide Absorb, Rest, Wrap;
      PaddedWhole(lengthField, written);
      WrapBlocks(|written|);
      var sizedesc := lengthField(Wrap(8 * bytes));
      WrapBits(|written|);
      Write([0x80] + Zeros((119 - bytes % 64) % 64));
      Write(sizedesc);
      WrapBlocks(|written|);
      hash := output(s);
    }
  }

  /** Hashing a message handed over in any pieces. */
  method HashPieces<S>(compress: (S, seq<Octet>) -> S, lengthField: nat -> seq<Octet>, output: S -> seq<Octet>,
                       initial: S, pieces: seq<seq<Octet>>)
    returns (hash: seq<Octet>)
    requires forall n :: |lengthField(n)| == 8
    ensures hash == output(Absorb(64, compress, initial, Padded(lengthField, Joined(pieces))))
  {
    var h := new Hasher(compress, lengthField, output, initial);
    for i := 0 to |pieces|
      invariant h.Valid() && fresh(h) && fresh(h.buf)
      invariant h.compress == compress && h.lengthField == lengthField && h.output == output && h.initial == initial
      invariant h.written == Joined(pieces[..i])
    {
      assert pieces[..i + 1][..i] == pieces[..i];
      h.Write(pieces[i]);
    }
    assert pieces[..|pieces|] == pieces;
    hash := h.Finalize();
  }
}
