/**
 * BLAKE's counters: what each compression is told about how much of the message it has
 * seen. The counter is advanced before every block, so closing first sets it back.
 */
module Blake {
  import opened BitStrings
  import opened Blocks
  import opened Words

  /** BLAKE-224 and 256 on 32-bit words, BLAKE-384 and 512 on 64-bit words. */
  datatype Width = Narrow | Wide
  {
    /** Octets in a block. */
    function Block(): nat {
      if Narrow? then 64 else 128
    }

    /** Octets in a word. */
    function Word(): nat {
      if Narrow? then 4 else 8
    }

    /** The low word of a number; "T0" of a count. */
    function Lo(c: int): nat {
      if Narrow? then c % 0x1_0000_0000 else c % 0x1_0000_0000_0000_0000
    }

    /** The next word; "T1" of a count. */
    function Hi(c: int): nat {
      if Narrow? then c / 0x1_0000_0000 % 0x1_0000_0000
      else c / 0x1_0000_0000_0000_0000 % 0x1_0000_0000_0000_0000
    }

    /** The bits of `i` blocks. */
    function BitsOfBlocks(i: nat): nat {
      if Narrow? then 512 * i else 1024 * i
    }
  }

  /** The compression: chaining value, block, and the two words of the counter. */
  type Compression<!H> = (H, seq<Octet>, nat, nat) -> H

  // ---------------------------------------------------------------------------------
  // The standard (section 2.1.3 of the BLAKE proposal)

  /** The counter of block `i` of a message of `bits` bits: the message bits up to its end, or 0 if it holds none. */
  function Counter(w: Width, i: nat, bits: nat): nat {
    if w.BitsOfBlocks(i) >= bits then 0
    else if w.BitsOfBlocks(i + 1) <= bits then w.BitsOfBlocks(i + 1)
    else bits
  }

  /** The chaining value after the whole blocks of `p`, the first of which is block `i`. */
  function Chained<H>(w: Width, compress: Compression<H>, h: H, p: seq<Octet>, i: nat, bits: nat): H
    decreases |p|
  {
    var n := w.Block();
    if |p| < n then h
    else
      var c := Counter(w, i, bits);
      Chained(w, compress, compress(h, p[..n], w.Lo(c), w.Hi(c)), p[n..], i + 1, bits)
  }

  /** The last octet before the length. */
  function LastPad(w: Width): nat {
    if w.Narrow? then 55 else 111
  }

  function Length(w: Width, bits: nat): (b: seq<Octet>)
    ensures |b| == 2 * w.Word()
  {
    OctetsBE(w.Hi(bits), w.Word()) + OctetsBE(w.Lo(bits), w.Word())
  }

  /** Whether the padding and the length fit the block that holds `ptr` octets and `n` bits. */
  predicate Fits(w: Width, ptr: nat, n: nat) {
    8 * ptr + n <= 8 * LastPad(w) + 6
  }

  function FullBit(full: bool): Octet {
    if full then 1 else 0
  }

  /** The padding before the length: `full` tells BLAKE-256 and 512 from the shorter ones. */
  function Pad(w: Width, full: bool, ptr: nat, ub: Octet, n: nat): (p: seq<Octet>)
    requires ptr < w.Block() && n < 8
    ensures (ptr + |p| + 2 * w.Word()) % w.Block() == 0
  {
    if Fits(w, ptr, n) then
      if ptr == LastPad(w) then [MarkOctet(ub, n) | FullBit(full)]
      else [MarkOctet(ub, n)] + Zeros(LastPad(w) - ptr - 1) + [FullBit(full)]
    else
      [MarkOctet(ub, n)] + Zeros(w.Block() - ptr - 1 + LastPad(w)) + [FullBit(full)]
  }

  /** A message of whole octets and `n` further bits, with its padding and its length. */
  function Padded(w: Width, full: bool, m: seq<Octet>, ub: Octet, n: nat): seq<Octet>
    requires n < 8
  {
    m + Pad(w, full, |Rest(w.Block(), m)|, ub, n) + Length(w, 8 * |m| + n)
  }

  function Gap(w: Width, ptr: nat, n: nat): nat
    requires ptr < w.Block() && n < 8
  {
    if Fits(w, ptr, n) then 8 * (LastPad(w) - ptr) + 6 - n else 8 * (w.Block() - ptr + LastPad(w)) + 6 - n
  }

  /** The length field reads back as the count of bits, high word first. */
  lemma LengthExact(w: Width, bits: nat)
    requires w.Narrow? ==> bits < 0x1_0000_0000_0000_0000
    requires w.Wide? ==> bits < 0x1_0000_0000_0000_0000_0000_0000_0000_0000
    ensures ValueBE(Length(w, bits)) == bits
  {
    hide OctetsBE, ValueBE, Power256;
    var n, hi, lo := w.Word(), w.Hi(bits), w.Lo(bits);
    PowersOfWords();
    ValueBEBack(hi, n);
    ValueBEBack(lo, n);
    ValueBEJoin(OctetsBE(hi, n), OctetsBE(lo, n));
  }

  lemma PowersOfWords()
    ensures Power256(4) == 0x1_0000_0000 && Power256(8) == 0x1_0000_0000_0000_0000
  {
    Power256Of8();
    assert Power256(2) == 0x1_0000;
  }

  /** As few zeros as bring message, mark, tell-tale bit and length to a whole number of blocks. */
  lemma GapLeast(w: Width, ptr: nat, n: nat, j: nat)
    requires ptr < w.Block() && n < 8
    ensures w.Narrow? ==> (8 * ptr + n + 1 + Gap(w, ptr, n) + 1 + 64) % 512 == 0
    ensures w.Narrow? && (8 * ptr + n + 1 + j + 1 + 64) % 512 == 0 ==> Gap(w, ptr, n) <= j
    ensures w.Wide? ==> (8 * ptr + n + 1 + Gap(w, ptr, n) + 1 + 128) % 1024 == 0
    ensures w.Wide? && (8 * ptr + n + 1 + j + 1 + 128) % 1024 == 0 ==> Gap(w, ptr, n) <= j
  {
  }

  lemma FullBits(full: bool)
    ensures BitsOf(true, FullBit(full)) == Falses(7) + [full]
  {
    FewFalses();
  }

  lemma MarkWithFull(mark: Octet, full: bool)
    requires !BitsOf(true, mark)[7]
    ensures BitsOf(true, mark | FullBit(full)) == BitsOf(true, mark)[..7] + [full]
  {
    assert mark & 1 == 0 ==> (mark | 1) & 1 != 0;
    assert mark | 0 == mark;
  }

  /** The padding is a one, the fewest zeros, and the bit that tells the digest lengths apart. */
  lemma PadBits(w: Width, full: bool, ptr: nat, ub: Octet, n: nat)
    requires ptr < w.Block() && n < 8
    ensures Bits(true, Pad(w, full, ptr, ub, n))
              == BitsOf(true, ub)[..n] + [true] + Falses(Gap(w, ptr, n)) + [full]
    ensures Gap(w, ptr, n) < 8 * w.Block()
  {
    hide BitsOf, MarkOctet, Bits, Falses, Zeros, FullBit;
    if Fits(w, ptr, n) && ptr == LastPad(w) {
      ShortBits(ub, n, full);
    } else {
      LongBits(ub, n, if Fits(w, ptr, n) then LastPad(w) - ptr - 1 else w.Block() - ptr - 1 + LastPad(w), full);
    }
  }

  lemma {:induction false} ShortBits(ub: Octet, n: nat, full: bool)
    requires n < 7
    ensures Bits(true, [MarkOctet(ub, n) | FullBit(full)]) == BitsOf(true, ub)[..n] + [true] + Falses(6 - n) + [full]
  {
    hide BitsOf, MarkOctet, Bits, Falses, FullBit;
    var mark := MarkOctet(ub, n);
    MarkBits(ub, n);
    FalsesSplit(6 - n, 1);
    assert Falses(7 - n)[..6 - n] == Falses(6 - n);
    assert BitsOf(true, mark)[..7] == BitsOf(true, ub)[..n] + [true] + Falses(6 - n);
    MarkWithFull(mark, full);
    SingleBits(true, mark | FullBit(full));
  }

  lemma {:induction false} LongBits(ub: Octet, n: nat, z: nat, full: bool)
    requires n < 8
    ensures Bits(true, [MarkOctet(ub, n)] + Zeros(z) + [FullBit(full)])
              == BitsOf(true, ub)[..n] + [true] + Falses(8 * z + 14 - n) + [full]
  {
    hide BitsOf, MarkOctet, Bits, Falses, FullBit, Zeros;
    var mark, top := MarkOctet(ub, n), BitsOf(true, ub)[..n];
    MarkBits(ub, n);
    TailBits(mark, z, full);
    FalsesSplit(7 - n, 8 * z + 7);
    assert BitsOf(true, mark) + Falses(8 * z + 7) == top + [true] + (Falses(7 - n) + Falses(8 * z + 7));
  }

  lemma {:induction false} TailBits(mark: Octet, z: nat, full: bool)
    ensures Bits(true, [mark] + Zeros(z) + [FullBit(full)]) == BitsOf(true, mark) + Falses(8 * z + 7) + [full]
  {
    hide BitsOf, Bits, Falses, Zeros, FullBit;
    SingleBits(true, mark);
    SingleBits(true, FullBit(full));
    FullBits(full);
    BitsJoin(true, [mark] + Zeros(z), [FullBit(full)]);
    BitsJoin(true, [mark], Zeros(z));
    BitsOfZeros(true, z);
    FalsesSplit(8 * z, 7);
    assert BitsOf(true, mark) + Falses(8 * z) + (Falses(7) + [full])
        == BitsOf(true, mark) + (Falses(8 * z) + Falses(7)) + [full];
  }

  // ---------------------------------------------------------------------------------
  // The program's counter

  /** The value of two words, and of whole turns of both. */
  function Composed(w: Width, u: int, h: int, l: int): int {
    if w.Narrow? then 0x1_0000_0000 * (0x1_0000_0000 * u + h) + l
    else 0x1_0000_0000_0000_0000 * (0x1_0000_0000_0000_0000 * u + h) + l
  }

  function Modulus(w: Width): nat {
    if w.Narrow? then 0x1_0000_0000 else 0x1_0000_0000_0000_0000
  }

  lemma QuotientNarrow(c: int, q: int, l: int)
    requires c == 0x1_0000_0000 * q + l && 0 <= l < 0x1_0000_0000
    ensures c / 0x1_0000_0000 == q && c % 0x1_0000_0000 == l
  {
  }

  lemma QuotientWide(c: int, q: int, l: int)
    requires c == 0x1_0000_0000_0000_0000 * q + l && 0 <= l < 0x1_0000_0000_0000_0000
    ensures c / 0x1_0000_0000_0000_0000 == q && c % 0x1_0000_0000_0000_0000 == l
  {
  }

  lemma WordsOf(w: Width, u: int, h: int, l: int)
    requires 0 <= h < Modulus(w) && 0 <= l < Modulus(w)
    ensures w.Lo(Composed(w, u, h, l)) == l && w.Hi(Composed(w, u, h, l)) == h
  {
    if w.Narrow? {
      QuotientNarrow(Composed(w, u, h, l), 0x1_0000_0000 * u + h, l);
      QuotientNarrow(0x1_0000_0000 * u + h, u, h);
    } else {
      QuotientWide(Composed(w, u, h, l), 0x1_0000_0000_0000_0000 * u + h, l);
      QuotientWide(0x1_0000_0000_0000_0000 * u + h, u, h);
    }
  }

  /** Every number is the value of its two words and some turns. */
  lemma Decomposed(w: Width, c: int) returns (u: int)
    ensures w.Lo(c) < Modulus(w) && w.Hi(c) < Modulus(w)
    ensures c == Composed(w, u, w.Hi(c), w.Lo(c))
  {
    u := if w.Narrow? then c / 0x1_0000_0000 / 0x1_0000_0000 else c / 0x1_0000_0000_0000_0000 / 0x1_0000_0000_0000_0000;
  }

  lemma Carry(w: Width, u: int, h: int, l: int)
    ensures Composed(w, u, h + 1, l - Modulus(w)) == Composed(w, u, h, l)
    ensures Composed(w, u + 1, h - Modulus(w), l) == Composed(w, u, h, l)
  {
  }

  lemma Shift(w: Width, u: int, h: int, l: int, d: int)
    ensures Composed(w, u, h, l) + d == Composed(w, u, h, l + d)
  {
  }

  /** A word that may have turned once, either way. */
  function Turned(w: Width, x: int): int {
    if x < 0 then x + Modulus(w) else if x >= Modulus(w) then x - Modulus(w) else x
  }

  /** Adding to a count less than a word: the low word turns, and takes the high one with it. */
  lemma Moved(w: Width, c: int, d: int)
    requires 0 - Modulus(w) < d < Modulus(w)
    ensures var l := w.Lo(c) + d; var h := w.Hi(c) + (if l < 0 then -1 else if l >= Modulus(w) then 1 else 0);
            w.Lo(c + d) == Turned(w, l) && w.Hi(c + d) == Turned(w, h)
  {
    hide Composed, Width.Lo, Width.Hi;
    var u := Decomposed(w, c);
    var l := w.Lo(c) + d;
    var h := w.Hi(c) + if l < 0 then -1 else if l >= Modulus(w) then 1 else 0;
    Shift(w, u, w.Hi(c), w.Lo(c), d);
    Carry(w, u, w.Hi(c), l);
    Carry(w, u, w.Hi(c) - 1, l + Modulus(w));
    Carry(w, u, h, Turned(w, l));
    Carry(w, u - 1, h + Modulus(w), Turned(w, l));
    WordsOf(w, if h < 0 then u - 1 else if h >= Modulus(w) then u + 1 else u, Turned(w, h), Turned(w, l));
  }

  /** "if ((T0 = T0 + 512) < 512) T1 = T1 + 1" advances the count by a block. */
  lemma Advance(w: Width, c: int)
    ensures var r := w.BitsOfBlocks(1); var t0 := Turned(w, w.Lo(c) + r);
            && w.Lo(c + r) == t0
            && w.Hi(c + r) == (if t0 < r then Turned(w, w.Hi(c) + 1) else w.Hi(c))
  {
    hide Composed, Width.Lo, Width.Hi;
    Moved(w, c, w.BitsOfBlocks(1));
    var u := Decomposed(w, c);
  }

  /** The count of whole blocks leaves room for less than a block in its low word, and is zero or holds a block. */
  lemma WholeBlocks(w: Width, k: nat)
    ensures var r := w.BitsOfBlocks(1); var l := w.Lo(w.BitsOfBlocks(k));
            l <= Modulus(w) - r && (l == 0 || r <= l)
  {
    if w.Narrow? {
      QuotientNarrow(512 * k, 512 * k / 0x1_0000_0000, 512 * k % 0x1_0000_0000);
      assert 512 * k % 0x1_0000_0000 == 512 * (k - 0x80_0000 * (512 * k / 0x1_0000_0000));
    } else {
      QuotientWide(1024 * k, 1024 * k / 0x1_0000_0000_0000_0000, 1024 * k % 0x1_0000_0000_0000_0000);
      assert 1024 * k % 0x1_0000_0000_0000_0000
              == 1024 * (k - 0x40_0000_0000_0000 * (1024 * k / 0x1_0000_0000_0000_0000));
    }
  }

  /** Closing sets the counter back by what the last block does not hold. */
  lemma SetBack(w: Width, k: nat, extra: nat)
    requires extra < w.BitsOfBlocks(1)
    ensures var r, c := w.BitsOfBlocks(1), w.BitsOfBlocks(k);
            && w.Lo(c - r + extra) == (if w.Lo(c) == 0 then Modulus(w) - r + extra else w.Lo(c) - (r - extra))
            && w.Hi(c - r + extra) == (if w.Lo(c) == 0 then Turned(w, w.Hi(c) - 1) else w.Hi(c))
            && w.Lo(c + extra) == w.Lo(c) + extra && w.Hi(c + extra) == w.Hi(c)
  {
    hide Composed, Width.Lo, Width.Hi;
    var r, c := w.BitsOfBlocks(1), w.BitsOfBlocks(k);
    WholeBlocks(w, k);
    var u := Decomposed(w, c);
    Moved(w, c, extra - r);
    Moved(w, c, extra);
  }

  /** A block without message bits: the counter is set so that the advance brings it to zero. */
  lemma SetBelowZero(w: Width)
    ensures w.Lo(0 - w.BitsOfBlocks(1)) == Modulus(w) - w.BitsOfBlocks(1) &&
            w.Hi(0 - w.BitsOfBlocks(1)) == Modulus(w) - 1
  {
    hide Composed, Width.Lo, Width.Hi;
    WordsOf(w, 0, 0, 0);
    assert Composed(w, 0, 0, 0) == 0 by {
      Zero(w);
    }
    Moved(w, 0, 0 - w.BitsOfBlocks(1));
  }

  lemma Zero(w: Width)
    ensures Composed(w, 0, 0, 0) == 0
  {
  }

  // ---------------------------------------------------------------------------------
  // The buffered hash

  /** One compression of the program: the count is advanced, then the block compressed. */
  function Bump<H>(w: Width, compress: Compression<H>): ((H, int), seq<Octet>) -> (H, int) {
    (s: (H, int), block: seq<Octet>) =>
      var c := s.1 + w.BitsOfBlocks(1);
      (compress(s.0, block, w.Lo(c), w.Hi(c)), c)
  }

  /** While only message blocks are compressed, the program's counters are the standard's. */
  lemma {:induction false} MessageBlocks<H>(w: Width, compress: Compression<H>, h: H, m: seq<Octet>, i: nat, bits: nat)
    requires 8 * |m| + w.BitsOfBlocks(i) <= bits
    ensures Absorb(w.Block(), Bump(w, compress), (h, w.BitsOfBlocks(i)), m)
         == (Chained(w, compress, h, m, i, bits), w.BitsOfBlocks(i + (|m| - |Rest(w.Block(), m)|) / w.Block()))
    ensures (|m| - |Rest(w.Block(), m)|) % w.Block() == 0
    decreases |m|
  {
    hide Width.Lo, Width.Hi;
    var n := w.Block();
    if |m| < n {
    } else {
      var c := w.BitsOfBlocks(i + 1);
      MessageBlocks(w, compress, compress(h, m[..n], w.Lo(c), w.Hi(c)), m[n..], i + 1, bits);
    }
  }

  /** Blocks that follow whole blocks. */
  lemma {:induction false} ChainedJoin<H>(w: Width, compress: Compression<H>, h: H, a: seq<Octet>, b: seq<Octet>,
        i: nat, bits: nat)
    requires |a| % w.Block() == 0
    ensures Chained(w, compress, h, a + b, i, bits)
         == Chained(w, compress, Chained(w, compress, h, a, i, bits), b, i + |a| / w.Block(), bits)
    decreases |a|
  {
    hide Width.Lo, Width.Hi, Counter;
    var n := w.Block();
    if |a| < n {
      assert a + b == b;
    } else {
      var c := Counter(w, i, bits);
      assert (a + b)[..n] == a[..n] && (a + b)[n..] == a[n..] + b;
      ChainedJoin(w, compress, compress(h, a[..n], w.Lo(c), w.Hi(c)), a[n..], b, i + 1, bits);
    }
  }

  lemma CountOneMore(w: Width, size: nat)
    requires size % w.Block() == 0
    ensures (size + w.Block()) % w.Block() == 0 && (size + w.Block()) / w.Block() == size / w.Block() + 1
  {
  }

  /** One more block, after a message whose count stands so that the advance gives the standard's counter. */
  lemma {:induction false} OneMoreBlock<H>(w: Width, compress: Compression<H>, h: H, m: seq<Octet>, c: int,
        tail: seq<Octet>, k: nat, bits: nat)
    requires var r := |Rest(w.Block(), m)|;
             r + |tail| == w.Block() && r <= |m| && (|m| - r) % w.Block() == 0 && k == (|m| - r) / w.Block()
    requires c + w.BitsOfBlocks(1) == Counter(w, k, bits)
    ensures Absorb(w.Block(), Bump(w, compress), (Chained(w, compress, h, m, 0, bits), c), Rest(w.Block(), m) + tail)
         == (Chained(w, compress, h, m + tail, 0, bits), Counter(w, k, bits))
    ensures Rest(w.Block(), m + tail) == [] && |m + tail| % w.Block() == 0 && |m + tail| / w.Block() == k + 1
  {
    hide Width.Lo, Width.Hi, Width.Block, Width.BitsOfBlocks, Counter, Absorb, Chained, Rest, Bump;
    var n := w.Block();
    var rest := Rest(n, m);
    var whole := m[..|m| - |rest|];
    CountOneMore(w, |whole|);
    RestIsEnd(n, m);
    assert m == whole + rest && m + tail == whole + (rest + tail);
    ChainedJoin(w, compress, h, whole, rest, 0, bits);
    ChainedJoin(w, compress, h, whole, rest + tail, 0, bits);
    AbsorbFill(n, Bump(w, compress), (h, 0), m, tail);
    NoBlock(w, compress, Chained(w, compress, h, whole, 0, bits), rest, k, bits);
    SingleBlock(w, compress, Chained(w, compress, h, whole, 0, bits), c, rest + tail, k, bits);
  }

  lemma NoBlock<H>(w: Width, compress: Compression<H>, h: H, b: seq<Octet>, k: nat, bits: nat)
    requires |b| < w.Block()
    ensures Chained(w, compress, h, b, k, bits) == h
  {
  }

  lemma {:induction false} SingleBlock<H>(w: Width, compress: Compression<H>, h: H, c: int, b: seq<Octet>, k: nat,
        bits: nat)
    requires |b| == w.Block() && c + w.BitsOfBlocks(1) == Counter(w, k, bits)
    ensures Absorb(w.Block(), Bump(w, compress), (h, c), b)
            == (Chained(w, compress, h, b, k, bits), Counter(w, k, bits))
  {
    hide Width.Lo, Width.Hi, Counter;
    assert b[..w.Block()] == b && b[w.Block()..] == [];
  }

  lemma {:induction false} WholeHasNoRest(w: Width, m: seq<Octet>)
    requires |m| % w.Block() == 0
    ensures Rest(w.Block(), m) == []
    decreases |m|
  {
    if |m| == 0 {
    } else {
      WholeHasNoRest(w, m[w.Block()..]);
    }
  }

  /** A block after the message holds no message bit. */
  lemma PaddingBlockCount(w: Width, k: nat, bits: nat)
    requires bits <= w.BitsOfBlocks(k + 1)
    ensures Counter(w, k + 1, bits) == 0
  {
  }

  lemma PaddedOne(w: Width, full: bool, m: seq<Octet>, ub: Octet, n: nat, tail: seq<Octet>)
    requires n < 8 && tail == Pad(w, full, |Rest(w.Block(), m)|, ub, n) + Length(w, 8 * |m| + n)
    ensures m + tail == Padded(w, full, m, ub, n)
  {
  }

  lemma {:induction false} PaddedTwo(w: Width, full: bool, m: seq<Octet>, ub: Octet, n: nat, first: seq<Octet>,
        second: seq<Octet>)
    requires var at := |Rest(w.Block(), m)|;
             n < 8 && !Fits(w, at, n) && first == [MarkOctet(ub, n)] + Zeros(w.Block() - at - 1)
    requires second == Zeros(LastPad(w)) + [FullBit(full)] + Length(w, 8 * |m| + n)
    ensures m + first + second == Padded(w, full, m, ub, n)
  {
    hide Zeros, MarkOctet, FullBit, Pad, Length;
    PadOfTwo(w, full, |Rest(w.Block(), m)|, ub, n);
  }

  lemma {:induction false} PadOfTwo(w: Width, full: bool, at: nat, ub: Octet, n: nat)
    requires at < w.Block() && n < 8 && !Fits(w, at, n)
    ensures Pad(w, full, at, ub, n)
         == [MarkOctet(ub, n)] + Zeros(w.Block() - at - 1) + Zeros(LastPad(w)) + [FullBit(full)]
  {
    hide MarkOctet, FullBit;
    assert Zeros(w.Block() - at - 1 + LastPad(w)) == Zeros(w.Block() - at - 1) + Zeros(LastPad(w));
  }

  lemma OrNothing(o: Octet)
    ensures o | FullBit(false) == o && o | FullBit(true) == o | 1
  {
  }

  lemma AllZeros(s: seq<Octet>)
    requires forall i :: 0 <= i < |s| ==> s[i] == 0
    ensures s == Zeros(|s|)
  {
  }

  /** A mark, zeros and the last bit, possibly in the octet of the mark, are the padding. */
  lemma PadFrom(s: seq<Octet>, w: Width, full: bool, at: nat, ub: Octet, n: nat)
    requires n < 8 && Fits(w, at, n) && at <= LastPad(w) < |s|
    requires forall j :: at < j < LastPad(w) ==> s[j] == 0
    requires s[at] == if at == LastPad(w) then MarkOctet(ub, n) | FullBit(full) else MarkOctet(ub, n)
    requires at < LastPad(w) ==> s[LastPad(w)] == FullBit(full)
    ensures s[at..LastPad(w) + 1] == Pad(w, full, at, ub, n)
  {
    hide MarkOctet, FullBit, Zeros, Fits;
    var last := LastPad(w);
    if at < last {
      AllZeros(s[at + 1..last]);
      assert s[at..last + 1] == [s[at]] + s[at + 1..last] + [s[last]];
    }
  }

  lemma AtMostLast(w: Width, at: nat, n: nat)
    requires n < 8 && Fits(w, at, n)
    ensures at <= LastPad(w)
  {
  }

  lemma OrToZero(full: bool)
    ensures 0 | FullBit(full) == FullBit(full)
  {
  }

  class Context<H> {
    const w: Width
    const full: bool
    const compress: Compression<H>
    const initial: H
    var h: H
    var t0: nat
    var t1: nat
    const buf: array<Octet>
    var ptr: nat
    /** The chaining value and the count before `written`. */
    ghost var from: (H, int)
    ghost var written: seq<Octet>

    ghost function State(): (H, int)
      reads this
    {
      Absorb(w.Block(), Bump(w, compress), from, written)
    }

    ghost predicate Valid()
      reads this, buf
    {
      && buf.Length == w.Block() && ptr < w.Block()
      && h == State().0 && t0 == w.Lo(State().1) && t1 == w.Hi(State().1)
      && buf[..ptr] == Rest(w.Block(), written)
    }

    /** "blake32_init" and "blake64_init". */
    constructor (w: Width, full: bool, compress: Compression<H>, iv: H)
      ensures Valid() && from == (iv, 0) && written == [] && fresh(buf)
      ensures this.w == w && this.full == full && this.compress == compress && initial == iv
    {
      this.w, this.full, this.compress, initial := w, full, compress, iv;
      h := iv;
      t0, t1, ptr := 0, 0, 0;
      buf := new Octet[w.Block()];
      from, written := (iv, 0), [];
    }

    /** The advance of the counter, with its carry, and the compression. */
    method CompressBuffer(ghost c: int)
      requires buf.Length == w.Block() && t0 == w.Lo(c) && t1 == w.Hi(c)
      modifies this`h, this`t0, this`t1
      ensures (h, c + w.BitsOfBlocks(1)) == Bump(w, compress)((old(h), c), buf[..])
      ensures t0 == w.Lo(c + w.BitsOfBlocks(1)) && t1 == w.Hi(c + w.BitsOfBlocks(1))
    {
      hide Width.Lo, Width.Hi;
      Advance(w, c);
      ghost var u := Decomposed(w, c);
      t0 := Turned(w, t0 + w.BitsOfBlocks(1));
      if t0 < w.BitsOfBlocks(1) {
        t1 := Turned(w, t1 + 1);
      }
      h := compress(h, buf[..], t0, t1);
    }

    /** Octets that at most fill the buffer. */
    method Piece(piece: seq<Octet>)
      requires Valid() && ptr + |piece| <= w.Block()
      modifies this`h, this`t0, this`t1, this`ptr, this`written, buf
      ensures Valid() && written == old(written) + piece
    {
      hide Bump, Width.Lo, Width.Hi, Absorb, Rest;
      ghost var s := State();
      Put(buf, ptr, piece);
      ptr := ptr + |piece|;
      if ptr == w.Block() {
        assert s == (h, s.1) && buf[..] == buf[..w.Block()];
        AbsorbFill(w.Block(), Bump(w, compress), from, written, piece);
        CompressBuffer(s.1);
        ptr := 0;
        assert Absorb(w.Block(), Bump(w, compress), from, written + piece) == (h, s.1 + w.BitsOfBlocks(1));
      } else {
        AbsorbShort(w.Block(), Bump(w, compress), from, written, piece);
      }
      written := written + piece;
    }

    /** "blake32" and "blake64": only the octets matter, not how they are split into calls. */
    method Core(data: seq<Octet>)
      requires Valid()
      modifies this`h, this`t0, this`t1, this`ptr, this`written, buf
      ensures Valid() && written == old(written) + data
    {
      hide Bump, Width.Lo, Width.Hi, Absorb, Rest;
      if |data| < w.Block() - ptr {
        Piece(data);
        return;
      }
      var at := 0;
      while at < |data|
        invariant 0 <= at <= |data|
        invariant Valid() && written == old(written) + data[..at]
      {
        var clen := if w.Block() - ptr > |data| - at then |data| - at else w.Block() - ptr;
        Piece(data[at..at + clen]);
        at := at + clen;
        assert data[..at] == data[..at - clen] + data[at - clen..at];
      }
      assert data[..at] == data;
    }

    method PutZeros(u: array<Octet>, from: nat, to: nat)
      requires from <= to <= u.Length
      modifies u
      ensures forall j :: from <= j < to ==> u[j] == 0
      ensures forall j :: 0 <= j < from || to <= j < u.Length ==> u[j] == old(u[j])
    {
      for i := from to to
        invariant forall j :: from <= j < i ==> u[j] == 0
        invariant forall j :: 0 <= j < from || to <= j < u.Length ==> u[j] == old(u[j])
      {
        u[i] := 0;
      }
    }

    method PutFullBit(u: array<Octet>, at: nat)
      requires at < u.Length
      modifies u
      ensures u[at] == old(u[at]) | FullBit(full)
      ensures forall j :: 0 <= j < u.Length && j != at ==> u[j] == old(u[j])
    {
      OrNothing(u[at]);
      if full {
        u[at] := u[at] | 1;
      }
    }

    /** The padding of a closing that fits one block, from `at` on. */
    method PutPad(u: array<Octet>, at: nat, ub: Octet, n: nat)
      requires u.Length == w.Block() && at < w.Block() && n < 8 && Fits(w, at, n)
      modifies u
      ensures u[at..LastPad(w) + 1] == Pad(w, full, at, ub, n)
    {
      hide MarkOctet, FullBit, Zeros, Pad, Fits;
      AtMostLast(w, at, n);
      u[at] := MarkOctet(ub, n);
      var last := LastPad(w);
      PutZeros(u, at + 1, last + 1);
      OrToZero(full);
      PutFullBit(u, last);
      PadFrom(u[..], w, full, at, ub, n);
      assert u[..][at..last + 1] == u[at..last + 1];
    }

    method PutLength(u: array<Octet>, th: nat, tl: nat)
      requires u.Length == w.Block()
      modifies u
      ensures u[..LastPad(w) + 1] == old(u[..LastPad(w) + 1])
      ensures u[LastPad(w) + 1..] == OctetsBE(th, w.Word()) + OctetsBE(tl, w.Word())
    {
      hide OctetsBE;
      var at := LastPad(w) + 1;
      Put(u, at, OctetsBE(th, w.Word()));
      Put(u, at + w.Word(), OctetsBE(tl, w.Word()));
      assert u[at..] == u[at..at + w.Word()] + u[at + w.Word()..];
      assert u[at..at + w.Word()] == u[..at + w.Word()][at..];
    }

    /** The buffer of a closing that fits one block, from `at` on. */
    method OneBlock(at: nat, ub: Octet, n: nat, th: nat, tl: nat) returns (tail: seq<Octet>)
      requires at < w.Block() && n < 8 && Fits(w, at, n)
      ensures tail == Pad(w, full, at, ub, n) + OctetsBE(th, w.Word()) + OctetsBE(tl, w.Word())
      ensures |tail| == w.Block() - at
    {
      hide OctetsBE, Pad;
      var u := new Octet[w.Block()];
      PutPad(u, at, ub, n);
      ghost var pad := u[..LastPad(w) + 1];
      PutLength(u, th, tl);
      tail := u[at..];
      assert pad[at..] == Pad(w, full, at, ub, n);
      assert tail == u[..LastPad(w) + 1][at..] + u[LastPad(w) + 1..];
    }

    /** The first of two closing blocks: the mark and zeros. */
    method FirstBlock(u: array<Octet>, at: nat, ub: Octet, n: nat)
      requires u.Length == w.Block() && at < w.Block() && n < 8
      modifies u
      ensures u[at..] == [MarkOctet(ub, n)] + Zeros(w.Block() - at - 1)
    {
      hide Zeros, MarkOctet;
      u[at] := MarkOctet(ub, n);
      ghost var mark := u[at];
      for i := at + 1 to w.Block()
        invariant u[at] == mark && forall j :: at < j < i ==> u[j] == 0
      {
        u[i] := 0;
      }
      assert u[at + 1..] == Zeros(w.Block() - at - 1);
    }

    /** The second: zeros, the bit that tells the digest lengths apart, the length. */
    method SecondBlock(u: array<Octet>, th: nat, tl: nat)
      requires u.Length == w.Block()
      modifies u
      ensures u[..] == Zeros(LastPad(w)) + [FullBit(full)] + OctetsBE(th, w.Word()) + OctetsBE(tl, w.Word())
    {
      hide OctetsBE, Zeros;
      for i := 0 to LastPad(w) + 1
        invariant forall j :: 0 <= j < i ==> u[j] == 0
      {
        u[i] := 0;
      }
      if full {
        u[LastPad(w)] := 1;
      }
      assert u[..LastPad(w)] == Zeros(LastPad(w));
      assert u[..LastPad(w) + 1] == u[..LastPad(w)] + [u[LastPad(w)]];
      PutLength(u, th, tl);
      assert u[..] == u[..LastPad(w) + 1] + u[LastPad(w) + 1..];
    }

    /** Nothing is absorbed yet of what the buffer holds, and the count is set to `c`. */
    method SetCount(low: nat, high: nat, ghost c: int)
      requires Valid() && low == w.Lo(c) && high == w.Hi(c)
      modifies this`t0, this`t1, this`from, this`written
      ensures Valid() && from == (h, c) && written == Rest(w.Block(), old(written))
    {
      hide Width.Lo, Width.Hi;
      t0, t1 := low, high;
      RestIsEnd(w.Block(), written);
      written := Rest(w.Block(), written);
      from := (h, c);
    }

    lemma BufferEmpty()
      requires Valid() && |written| % w.Block() == 0
      ensures Rest(w.Block(), written) == [] && ptr == 0
    {
      WholeHasNoRest(w, written);
    }

    /** Where a message stands when it is closed. */
    lemma Begun(bits: nat) returns (k: nat)
      requires Valid() && from == (initial, 0) && 8 * |written| <= bits
      ensures k == (|written| - ptr) / w.Block() && (|written| - ptr) % w.Block() == 0 &&
              ptr == |Rest(w.Block(), written)|
      ensures h == Chained(w, compress, initial, written, 0, bits)
      ensures t0 == w.Lo(w.BitsOfBlocks(k)) && t1 == w.Hi(w.BitsOfBlocks(k))
      ensures w.BitsOfBlocks(k) + 8 * ptr == 8 * |written|
    {
      hide Width.Lo, Width.Hi, Absorb, Rest, Chained, Bump;
      MessageBlocks(w, compress, initial, written, 0, bits);
      k := (|written| - ptr) / w.Block();
    }

    /** The counter is set so that the advance before the next block gives what the standard asks. */
    method PreBias(n: nat, ghost k: nat, ghost bits: nat) returns (ghost c: int)
      requires Valid() && n < 8 && bits == w.BitsOfBlocks(k) + 8 * ptr + n
      requires t0 == w.Lo(w.BitsOfBlocks(k)) && t1 == w.Hi(w.BitsOfBlocks(k))
      modifies this`t0, this`t1, this`from, this`written
      ensures Valid() && from == (h, c) && written == Rest(w.Block(), old(written))
      ensures c + w.BitsOfBlocks(1) == Counter(w, k, bits)
    {
      hide Width.Lo, Width.Hi, Absorb, Rest, Bump;
      var bitLen := 8 * ptr + n;
      SetBack(w, k, bitLen);
      SetBelowZero(w);
      ghost var u := Decomposed(w, w.BitsOfBlocks(k));
      if ptr == 0 && n == 0 {
        c := 0 - w.BitsOfBlocks(1);
        SetCount(Modulus(w) - w.BitsOfBlocks(1), Modulus(w) - 1, c);
      } else {
        c := w.BitsOfBlocks(k) - w.BitsOfBlocks(1) + bitLen;
        WholeBlocks(w, k);
        if t0 == 0 {
          SetCount(Modulus(w) - w.BitsOfBlocks(1) + bitLen, Turned(w, t1 - 1), c);
        } else {
          SetCount(t0 - (w.BitsOfBlocks(1) - bitLen), t1, c);
        }
      }
    }

    /** A block that completes what the buffer holds. */
    method LastBlock(tail: seq<Octet>, ghost m: seq<Octet>, ghost k: nat, ghost bits: nat)
      requires Valid() && ptr + |tail| == w.Block() && written == Rest(w.Block(), m) && ptr == |written|
      requires (|m| - ptr) % w.Block() == 0 && k == (|m| - ptr) / w.Block()
      requires from == (Chained(w, compress, initial, m, 0, bits), from.1)
      requires from.1 + w.BitsOfBlocks(1) == Counter(w, k, bits)
      modifies this`h, this`t0, this`t1, this`ptr, this`written, buf
      ensures Valid() && h == Chained(w, compress, initial, m + tail, 0, bits) && written == Rest(w.Block(), m) + tail
      ensures Rest(w.Block(), m + tail) == [] && |m + tail| % w.Block() == 0 && |m + tail| / w.Block() == k + 1
    {
      hide Width.Lo, Width.Hi, Absorb, Rest, Bump, Chained;
      Core(tail);
      OneMoreBlock(w, compress, initial, m, from.1, tail, k, bits);
    }

    /** How a closing stands once the counter is set back. */
    ghost predicate Closing(m: seq<Octet>, k: nat, bits: nat)
      reads this, buf
    {
      && Valid() && written == Rest(w.Block(), m) && ptr == |written|
      && (|m| - ptr) % w.Block() == 0 && k == (|m| - ptr) / w.Block()
      && from == (Chained(w, compress, initial, m, 0, bits), from.1)
      && from.1 + w.BitsOfBlocks(1) == Counter(w, k, bits)
    }

    /** The padding and the length go into the block begun. */
    method CloseInOne(ub: Octet, n: nat, th: nat, tl: nat, ghost m: seq<Octet>, ghost k: nat)
      requires n < 8 && Fits(w, ptr, n) && Closing(m, k, 8 * |m| + n)
      requires th == w.Hi(8 * |m| + n) && tl == w.Lo(8 * |m| + n)
      modifies this`h, this`t0, this`t1, this`ptr, this`written, this`from, buf
      ensures h == Chained(w, compress, initial, Padded(w, full, m, ub, n), 0, 8 * |m| + n)
    {
      hide Width.Lo, Width.Hi, Absorb, Rest, Chained, Pad, Bump, OctetsBE, Counter;
      var tail := OneBlock(ptr, ub, n, th, tl);
      PaddedOne(w, full, m, ub, n, tail);
      LastBlock(tail, m, k, 8 * |m| + n);
    }

    /** They need another block, whose counter is zero. */
    method CloseInTwo(ub: Octet, n: nat, th: nat, tl: nat, ghost m: seq<Octet>, ghost k: nat)
      requires n < 8 && !Fits(w, ptr, n) && Closing(m, k, 8 * |m| + n)
      requires th == w.Hi(8 * |m| + n) && tl == w.Lo(8 * |m| + n)
      modifies this`h, this`t0, this`t1, this`ptr, this`written, this`from, buf
      ensures h == Chained(w, compress, initial, Padded(w, full, m, ub, n), 0, 8 * |m| + n)
    {
      hide Width.Lo, Width.Hi, Absorb, Rest, Chained, Pad, Bump, Zeros, OctetsBE, Counter, MarkOctet, FullBit;
      var at := ptr;
      var u := new Octet[w.Block()];
      FirstBlock(u, at, ub, n);
      var first := u[at..];
      LastBlock(first, m, k, 8 * |m| + n);
      SecondBlock(u, th, tl);
      var second := u[..];
      SetBelowZero(w);
      BufferEmpty();
      SetCount(Modulus(w) - w.BitsOfBlocks(1), Modulus(w) - 1, 0 - w.BitsOfBlocks(1));
      PaddingBlockCount(w, k, 8 * |m| + n);
      PaddedTwo(w, full, m, ub, n, first, second);
      LastBlock(second, m + first, k + 1, 8 * |m| + n);
    }

    /** "blake32_close" and "blake64_close": every block has met the counter the standard gives it. */
    method Close(ub: Octet, n: nat)
      requires Valid() && from == (initial, 0) && n < 8
      modifies this`h, this`t0, this`t1, this`ptr, this`written, this`from, buf
      ensures h == Chained(w, compress, initial, Padded(w, full, old(written), ub, n), 0, 8 * |old(written)| + n)
    {
      hide Width.Lo, Width.Hi, Absorb, Rest, Chained, Pad, Bump, Counter, Padded;
      ghost var m := written;
      ghost var k := Begun(8 * |m| + n);
      var bitLen := 8 * ptr + n;
      SetBack(w, k, bitLen);
      var tl, th := t0 + bitLen, t1;
      ghost var c := PreBias(n, k, 8 * |m| + n);
      if bitLen <= 8 * LastPad(w) + 6 {
        CloseInOne(ub, n, th, tl, m, k);
      } else {
        CloseInTwo(ub, n, th, tl, m, k);
      }
    }
  }

  /** However a message is split into calls, its chaining value is the one of the standard's blocks and counters. */
  method Hash<H>(w: Width, full: bool, compress: Compression<H>, iv: H, pieces: seq<seq<Octet>>, ub: Octet, n: nat)
    returns (h: H)
    requires n < 8
    ensures var m := Joined(pieces);
            h == Chained(w, compress, iv, Padded(w, full, m, ub, n), 0, 8 * |m| + n)
  {
    hide Chained, Padded, Context<H>.Valid;
    var c := new Context(w, full, compress, iv);
    for i := 0 to |pieces|
      invariant c.Valid() && fresh(c) && fresh(c.buf) && c.from == (iv, 0) && c.written == Joined(pieces[..i])
      invariant c.w == w && c.full == full && c.compress == compress && c.initial == iv
    {
      assert pieces[..i + 1][..i] == pieces[..i];
      c.Core(pieces[i]);
    }
    assert pieces[..|pieces|] == pieces;
    c.Close(ub, n);
    h := c.h;
  }
}
