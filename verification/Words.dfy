/** Octets, 32-bit words and the byte orders they are read and written in (crypto/common.h). */
module Words {
  type Octet = bv8
  type Word = bv32

  function Xored(v: Word, w: Word): Word {
    v ^ w
  }

  /** Addition modulo 2^32. */
  function Add(v: Word, w: Word): Word {
    v + w
  }

  /** Exclusive or, bit by bit. */
  lemma XoredBits(v: Word, w: Word)
    ensures Xored(v, w) == (v & !w) | (!v & w)
  {
  }

  /** Adding back what was subtracted, modulo 2^32. */
  lemma AddBack(v: Word, w: Word)
    ensures Add(v - w, w) == v
  {
  }

  function Low(w: Word): Octet {
    (w & 0xff) as bv8
  }

  /** "ReadBE32" and "ReadLE32". */
  function WordBE(b: seq<Octet>): Word
    requires |b| == 4
  {
    ((b[0] as bv32) << 24) | ((b[1] as bv32) << 16) | ((b[2] as bv32) << 8) | (b[3] as bv32)
  }

  function WordLE(b: seq<Octet>): Word
    requires |b| == 4
  {
    ((b[3] as bv32) << 24) | ((b[2] as bv32) << 16) | ((b[1] as bv32) << 8) | (b[0] as bv32)
  }

  /** The first octet is the high one, or the low one. */
  lemma WordBEOctets(b: seq<Octet>)
    requires |b| == 4
    ensures ((WordBE(b) >> 24) & 0xff) as bv8 == b[0] && ((WordBE(b) >> 16) & 0xff) as bv8 == b[1]
    ensures ((WordBE(b) >> 8) & 0xff) as bv8 == b[2] && (WordBE(b) & 0xff) as bv8 == b[3]
  {
  }

  lemma WordLEOctets(b: seq<Octet>)
    requires |b| == 4
    ensures (WordLE(b) & 0xff) as bv8 == b[0] && ((WordLE(b) >> 8) & 0xff) as bv8 == b[1]
    ensures ((WordLE(b) >> 16) & 0xff) as bv8 == b[2] && ((WordLE(b) >> 24) & 0xff) as bv8 == b[3]
  {
  }

  /** "WriteBE32" and "WriteLE32". */
  function BytesBE(w: Word): (b: seq<Octet>)
    ensures |b| == 4 && WordBE(b) == w
  {
    [Low(w >> 24), Low(w >> 16), Low(w >> 8), Low(w)]
  }

  function BytesLE(w: Word): (b: seq<Octet>)
    ensures |b| == 4 && WordLE(b) == w
  {
    [Low(w), Low(w >> 8), Low(w >> 16), Low(w >> 24)]
  }

  /** The words of a chunk, in either byte order. */
  function WordsBE(chunk: seq<Octet>): (m: seq<Word>)
    ensures |m| == |chunk| / 4
  {
    if |chunk| < 4 then [] else WordsBE(chunk[..|chunk| - 4]) + [WordBE(chunk[|chunk| - 4..])]
  }

  function WordsLE(chunk: seq<Octet>): (m: seq<Word>)
    ensures |m| == |chunk| / 4
  {
    if |chunk| < 4 then [] else WordsLE(chunk[..|chunk| - 4]) + [WordLE(chunk[|chunk| - 4..])]
  }

  lemma {:induction false} WordsBEAt(chunk: seq<Octet>, i: nat)
    requires |chunk| % 4 == 0 && i < |chunk| / 4
    ensures WordsBE(chunk)[i] == WordBE(chunk[4 * i..4 * i + 4])
    decreases |chunk|
  {
    hide WordBE;
    var n := |chunk| - 4;
    if i < |chunk| / 4 - 1 {
      WordsBEAt(chunk[..n], i);
      assert chunk[..n][4 * i..4 * i + 4] == chunk[4 * i..4 * i + 4];
    } else {
      assert chunk[4 * i..4 * i + 4] == chunk[n..];
    }
  }

  lemma {:induction false} WordsLEAt(chunk: seq<Octet>, i: nat)
    requires |chunk| % 4 == 0 && i < |chunk| / 4
    ensures WordsLE(chunk)[i] == WordLE(chunk[4 * i..4 * i + 4])
    decreases |chunk|
  {
    hide WordLE;
    var n := |chunk| - 4;
    if i < |chunk| / 4 - 1 {
      WordsLEAt(chunk[..n], i);
      assert chunk[..n][4 * i..4 * i + 4] == chunk[4 * i..4 * i + 4];
    } else {
      assert chunk[4 * i..4 * i + 4] == chunk[n..];
    }
  }

  lemma {:induction false} OneMoreBE(m: seq<Octet>, w: seq<Octet>)
    requires |m| % 4 == 0 && |w| == 4
    ensures WordsBE(m + w) == WordsBE(m) + [WordBE(w)]
  {
    hide WordBE;
    assert (m + w)[..|m|] == m && (m + w)[|m|..] == w;
  }

  lemma {:induction false} OneMoreLE(m: seq<Octet>, w: seq<Octet>)
    requires |m| % 4 == 0 && |w| == 4
    ensures WordsLE(m + w) == WordsLE(m) + [WordLE(w)]
  {
    hide WordLE;
    assert (m + w)[..|m|] == m && (m + w)[|m|..] == w;
  }

  lemma NoWords()
    ensures WordsBE([]) == [] && WordsLE([]) == []
  {
  }

  /** One bit of an octet. */
  function Bit(on: bool, mask: Octet): Octet {
    if on then mask else 0
  }

  function Odd(n: nat): bool {
    n % 2 == 1
  }

  function Half(n: nat): nat {
    n / 2
  }

  /** The low octet of a number, written bit by bit. */
  function OctetOf(n: nat): Octet {
    var n1 := Half(n); var n2 := Half(n1); var n3 := Half(n2); var n4 := Half(n3); var n5 := Half(n4);
    var n6 := Half(n5);
    Bit(Odd(n), 1) | Bit(Odd(n1), 2) | Bit(Odd(n2), 4) | Bit(Odd(n3), 8) | Bit(Odd(n4), 16) | Bit(Odd(n5), 32)
    | Bit(Odd(n6), 64) | Bit(Odd(Half(n6)), 128)
  }

  function Weight(b: Octet, mask: Octet, weight: nat): nat {
    if b & mask != 0 then weight else 0
  }

  /** The number an octet stands for. */
  function Value(b: Octet): nat {
    Weight(b, 1, 1) + Weight(b, 2, 2) + Weight(b, 4, 4) + Weight(b, 8, 8) + Weight(b, 16, 16) + Weight(b, 32, 32)
    + Weight(b, 64, 64) + Weight(b, 128, 128)
  }

  lemma BitsApart(b: Octet, p0: bool, p1: bool, p2: bool, p3: bool, p4: bool, p5: bool, p6: bool, p7: bool)
    requires b == Bit(p0, 1) | Bit(p1, 2) | Bit(p2, 4) | Bit(p3, 8) | Bit(p4, 16) | Bit(p5, 32) | Bit(p6,
             64) | Bit(p7, 128)
    ensures (b & 1 != 0) == p0 && (b & 2 != 0) == p1 && (b & 4 != 0) == p2 && (b & 8 != 0) == p3
    ensures (b & 16 != 0) == p4 && (b & 32 != 0) == p5 && (b & 64 != 0) == p6 && (b & 128 != 0) == p7
  {
  }

  function OneIf(on: bool): nat {
    if on then 1 else 0
  }

  /** The number an octet made of given bits stands for. */
  lemma BitsValue(b: Octet, p0: bool, p1: bool, p2: bool, p3: bool, p4: bool, p5: bool, p6: bool, p7: bool)
    requires b == Bit(p0, 1) | Bit(p1, 2) | Bit(p2, 4) | Bit(p3, 8) | Bit(p4, 16) | Bit(p5, 32) | Bit(p6,
             64) | Bit(p7, 128)
    ensures Value(b) == OneIf(p0) + 2 * OneIf(p1) + 4 * OneIf(p2) + 8 * OneIf(p3) + 16 * OneIf(p4) + 32 * OneIf(p5)
                        + 64 * OneIf(p6) + 128 * OneIf(p7)
  {
    hide Bit;
    BitsApart(b, p0, p1, p2, p3, p4, p5, p6, p7);
  }

  lemma Halve(n: nat)
    ensures n == 2 * Half(n) + OneIf(Odd(n))
  {
  }

  lemma LowByte(n: nat, r: nat, q: nat)
    requires n == 256 * q + r && r < 256
    ensures n % 256 == r
  {
  }

  lemma OctetValue(n: nat)
    ensures Value(OctetOf(n)) == n % 256
  {
    hide Bit, Half, Odd, Value;
    var n1 := Half(n);
    var n2 := Half(n1);
    var n3 := Half(n2);
    var n4 := Half(n3);
    var n5 := Half(n4);
    var n6 := Half(n5);
    var n7 := Half(n6);
    BitsValue(OctetOf(n), Odd(n), Odd(n1), Odd(n2), Odd(n3), Odd(n4), Odd(n5), Odd(n6), Odd(n7));
    Halve(n);
    Halve(n1);
    Halve(n2);
    Halve(n3);
    Halve(n4);
    Halve(n5);
    Halve(n6);
    Halve(n7);
    LowByte(n, Value(OctetOf(n)), Half(n7));
  }

  lemma OctetsOf0And24()
    ensures OctetOf(0) == 0 && OctetOf(24) == 0x18
  {
  }

  /** The `k` low octets of a number, least significant first ("WriteLE64" for `k == 8`). */
  function OctetsLE(n: nat, k: nat): (b: seq<Octet>)
    ensures |b| == k
  {
    if k == 0 then [] else [OctetOf(n)] + OctetsLE(n / 256, k - 1)
  }

  /** The same, most significant first ("WriteBE64"). */
  function OctetsBE(n: nat, k: nat): (b: seq<Octet>)
    ensures |b| == k
  {
    if k == 0 then [] else OctetsBE(n / 256, k - 1) + [OctetOf(n)]
  }

  function ValueLE(b: seq<Octet>): nat {
    if |b| == 0 then 0 else Value(b[0]) + 256 * ValueLE(b[1..])
  }

  function ValueBE(b: seq<Octet>): nat {
    if |b| == 0 then 0 else 256 * ValueBE(b[..|b| - 1]) + Value(b[|b| - 1])
  }

  /** An octet's value is the octet, and eight octets are worth the sum of their values, weighted. */
  lemma ValueIsOctet(b: Octet)
    ensures Value(b) == b as int
  {
  }

  lemma {:induction false} ValueLEIs(b: seq<Octet>)
    requires |b| == 8
    ensures ValueLE(b) ==
      Value(b[0]) + 0x100 * Value(b[1]) + 0x1_0000 * Value(b[2]) + 0x100_0000 * Value(b[3])
      + 0x1_0000_0000 * Value(b[4]) + 0x100_0000_0000 * Value(b[5]) + 0x1_0000_0000_0000 * Value(b[6])
      + 0x100_0000_0000_0000 * Value(b[7])
  {
    hide Value;
    assert b[1..][1..] == b[2..] && b[2..][1..] == b[3..] && b[3..][1..] == b[4..] && b[4..][1..] == b[5..];
    assert b[5..][1..] == b[6..] && b[6..][1..] == b[7..] && b[7..][1..] == [];
    assert ValueLE(b[6..]) == Value(b[6]) + 256 * ValueLE(b[7..]);
    assert ValueLE(b[4..]) == Value(b[4]) + 256 * ValueLE(b[5..]);
    assert ValueLE(b[2..]) == Value(b[2]) + 256 * ValueLE(b[3..]);
  }

  function Power256(k: nat): (p: nat)
    ensures p > 0
  {
    if k == 0 then 1 else 256 * Power256(k - 1)
  }

  lemma DivideBound(n: nat, p: nat)
    requires n < 256 * p
    ensures n / 256 < p
  {
  }

  /** Written octets read back as the number they were written from. */
  lemma {:induction false} ValueLEBack(n: nat, k: nat)
    requires n < Power256(k)
    ensures ValueLE(OctetsLE(n, k)) == n
  {
    hide OctetOf, Value;
    if k == 0 {
    } else {
      DivideBound(n, Power256(k - 1));
      ValueLEBack(n / 256, k - 1);
      OctetValue(n);
      assert OctetsLE(n, k)[1..] == OctetsLE(n / 256, k - 1);
    }
  }

  lemma {:induction false} ValueBEBack(n: nat, k: nat)
    requires n < Power256(k)
    ensures ValueBE(OctetsBE(n, k)) == n
  {
    hide OctetOf, Value;
    if k == 0 {
    } else {
      DivideBound(n, Power256(k - 1));
      ValueBEBack(n / 256, k - 1);
      OctetValue(n);
      assert OctetsBE(n, k)[..k - 1] == OctetsBE(n / 256, k - 1);
    }
  }

  lemma {:induction false} ValueBEJoin(a: seq<Octet>, b: seq<Octet>)
    ensures ValueBE(a + b) == ValueBE(a) * Power256(|b|) + ValueBE(b)
    decreases |b|
  {
    hide Value;
    if |b| == 0 {
      assert a + b == a;
    } else {
      var n := |b| - 1;
      ValueBEJoin(a, b[..n]);
      assert (a + b)[..|a + b| - 1] == a + b[..n];
      assert 256 * (ValueBE(a) * Power256(n)) == ValueBE(a) * (256 * Power256(n));
    }
  }

  lemma {:induction false} ValueBEIs(b: seq<Octet>)
    requires |b| == 8
    ensures ValueBE(b) ==
      0x100_0000_0000_0000 * Value(b[0]) + 0x1_0000_0000_0000 * Value(b[1]) + 0x100_0000_0000 * Value(b[2])
      + 0x1_0000_0000 * Value(b[3]) + 0x100_0000 * Value(b[4]) + 0x1_0000 * Value(b[5]) + 0x100 * Value(b[6])
      + Value(b[7])
  {
    hide Value, ValueBE;
    ValueBEJoin(b[..4], b[4..]);
    ValueBE4(b[..4]);
    ValueBE4(b[4..]);
    assert b == b[..4] + b[4..];
    assert Power256(2) == 0x1_0000 && Power256(4) == 0x1_0000_0000;
  }

  lemma {:induction false} ValueBE4(b: seq<Octet>)
    requires |b| == 4
    ensures ValueBE(b) == 0x100_0000 * Value(b[0]) + 0x1_0000 * Value(b[1]) + 0x100 * Value(b[2]) + Value(b[3])
  {
    hide Value;
    assert b[..3][..2] == b[..2] && b[..2][..1] == b[..1] && b[..1][..0] == [];
    assert ValueBE(b[..1]) == Value(b[0]);
    assert ValueBE(b[..2]) == 256 * ValueBE(b[..1]) + Value(b[1]);
    assert ValueBE(b[..3]) == 256 * ValueBE(b[..2]) + Value(b[2]);
    assert ValueBE(b) == 256 * ValueBE(b[..3]) + Value(b[3]);
  }

  lemma Power256Of8()
    ensures Power256(8) == 0x1_0000_0000_0000_0000
  {
    assert Power256(2) == 0x1_0000;
    assert Power256(4) == 0x1_0000_0000;
    assert Power256(6) == 0x1_0000_0000_0000;
  }

  /** "memcpy(buf + at, data, n)". */
  method Put(buf: array<Octet>, at: nat, data: seq<Octet>)
    requires at + |data| <= buf.Length
    modifies buf
    ensures buf[..at] == old(buf[..at]) && buf[at..at + |data|] == data
    ensures buf[at + |data|..] == old(buf[at + |data|..])
    ensures buf[..at + |data|] == old(buf[..at]) + data
  {
    for i := 0 to |data|
      invariant buf[..at] == old(buf[..at]) && buf[at + |data|..] == old(buf[at + |data|..])
      invariant forall j :: 0 <= j < i ==> buf[at + j] == data[j]
    {
      buf[at + i] := data[i];
    }
  }
}
