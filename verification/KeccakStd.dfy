/** Operations on one lane. */
module Lanes {
  type Lane = bv64

  function Not(v: Lane): Lane {
    !v
  }

  function Xor(v: Lane, w: Lane): Lane {
    v ^ w
  }

  function Rot1(v: Lane): Lane {
    (v << 1) | (v >> 63)
  }

  function ChiLane(a: Lane, b: Lane, c: Lane): Lane {
    Xor(a, Not(b) & c)
  }

  /** Exclusive or and negation, bit by bit; chi; rotation by one. */
  lemma XorIsBitwise(v: Lane, w: Lane)
    ensures Xor(v, w) == (v & !w) | (!v & w)
  {
  }

  lemma NotIsBitwise(v: Lane)
    ensures Not(v) & v == 0 && Not(v) | v == 0xffff_ffff_ffff_ffff
  {
  }

  lemma ChiLaneBits(a: Lane, b: Lane, c: Lane)
    ensures ChiLane(a, b, c) == (a & b) | (a & !c) | (!a & !b & c)
  {
  }

  lemma Rot1Rotates(v: Lane)
    ensures Rot1(v) == v.RotateLeft(1)
  {
  }

  lemma XorCommutes(v: Lane, w: Lane)
    ensures Xor(v, w) == Xor(w, v)
  {
  }

  lemma XorBits(u: Lane, v: Lane, w: Lane)
    ensures (u ^ v) ^ w == u ^ (v ^ w)
  {
  }

  lemma XorAssociates(u: Lane, v: Lane, w: Lane)
    ensures Xor(Xor(u, v), w) == Xor(u, Xor(v, w))
  {
    XorBits(u, v, w);
  }

  lemma NotXor(v: Lane, w: Lane)
    ensures Xor(Not(v), w) == Not(Xor(v, w))
  {
  }

  lemma XorNot(v: Lane, w: Lane)
    ensures Xor(v, Not(w)) == Not(Xor(v, w))
  {
  }

  lemma BothNot(v: Lane, w: Lane)
    ensures Xor(Not(v), Not(w)) == Xor(v, w)
  {
  }

  lemma RotBits(v: Lane)
    ensures (!v << 1) | (!v >> 63) == !((v << 1) | (v >> 63))
  {
  }

  lemma Rot1Complement(v: Lane)
    ensures Rot1(!v) == !Rot1(v)
  {
    RotBits(v);
  }

  lemma Rot1Not(v: Lane)
    ensures Rot1(Not(v)) == Not(Rot1(v))
  {
    hide Rot1;
    Rot1Complement(v);
  }
}

/** Keccak-f[1600] as sections 3.2 and 3.3 of FIPS 202 define it. */
module KeccakStd {
  import opened Lanes
  import opened Words

  /** A state is 25 lanes; lane (x, y) is at 5x + y. */
  type State = s: seq<Lane> | |s| == 25 witness Zero()

  function Zero(): (s: seq<Lane>)
    ensures |s| == 25 && forall k :: 0 <= k < 25 ==> s[k] == 0
  {
    [0, 0, 0, 0, 0, 0, 0, 0, 0, 0, 0, 0, 0, 0, 0, 0, 0, 0, 0, 0, 0, 0, 0, 0, 0]
  }

  function At(x: nat, y: nat): (k: nat)
    ensures k < 25
  {
    5 * (x % 5) + y % 5
  }

  /** Rotation by `n` places, towards the most significant bit. */
  function Rot(v: Lane, n: nat): Lane {
    if n == 0 then v else Rot1(Rot(v, n - 1))
  }

  /** The parity of a column. */
  function Column(s: State, x: nat): Lane {
    Xor(Xor(Xor(Xor(s[At(x, 0)], s[At(x, 1)]), s[At(x, 2)]), s[At(x, 3)]), s[At(x, 4)])
  }

  /** What theta adds to every lane of a column. */
  function Effect(s: State, x: nat): Lane {
    Xor(Column(s, x + 4), Rot(Column(s, x + 1), 1))
  }

  function Theta(s: State): State {
    seq(25, k requires 0 <= k < 25 => Xor(s[k], Effect(s, k / 5)))
  }

  /** The offsets of the lanes; `OffsetsTriangular` derives them as section 3.2.2 does. */
  function Offsets(): (o: seq<nat>)
    ensures |o| == 25
  {
    [0, 36, 3, 41, 18, 1, 44, 10, 45, 2, 62, 6, 43, 15, 61, 28, 55, 25, 21, 56, 27, 20, 39, 8, 14]
  }

  function Rho(s: State): State {
    seq(25, k requires 0 <= k < 25 => Rot(s[k], Offsets()[k]))
  }

  /** The lane that pi moves to `k`: (x + 3y, x) moves to (x, y). */
  function PiFrom(k: nat): (j: nat)
    ensures j < 25
  {
    At(k / 5 + 3 * (k % 5), k / 5)
  }

  function Pi(s: State): State {
    seq(25, k requires 0 <= k < 25 => s[PiFrom(k)])
  }

  /** Lane (x, y) after chi, from it and the two lanes to its right. */
  function ChiOf(s: State, k: nat): Lane
    requires k < 25
  {
    ChiLane(s[k], s[At(k / 5 + 1, k % 5)], s[At(k / 5 + 2, k % 5)])
  }

  function Chi(s: State): State {
    seq(25, k requires 0 <= k < 25 => ChiOf(s, k))
  }

  function Iota(s: State, rc: Lane): State {
    s[0 := Xor(s[0], rc)]
  }

  function Round(s: State, rc: Lane): State {
    Iota(Chi(Pi(Rho(Theta(s)))), rc)
  }

  /** The five lanes of a column, added. */
  function Parity(s: State, x: nat): Lane
    requires x < 5
  {
    var k := 5 * x;
    Xor(Xor(Xor(Xor(s[k], s[k + 1]), s[k + 2]), s[k + 3]), s[k + 4])
  }

  /** The steps by coordinates, lane (x, y) being number 5x + y (sections 3.2.1 and 3.2.3 of FIPS 202). */
  lemma ThetaAt(s: State, x: nat, y: nat)
    requires x < 5 && y < 5
    ensures Theta(s)[5 * x + y] == Xor(s[5 * x + y], Xor(Parity(s, (x + 4) % 5), Rot1(Parity(s, (x + 1) % 5))))
  {
    hide Xor, Rot1, Parity;
    ColumnParity(s, x + 4);
    ColumnParity(s, x + 1);
    RowColumn(x, y);
    assert Rot(Column(s, x + 1), 1) == Rot1(Rot(Column(s, x + 1), 0));
  }

  lemma ColumnParity(s: State, x: nat)
    ensures Column(s, x) == Parity(s, x % 5)
  {
    hide Xor;
  }

  lemma RowColumn(x: nat, y: nat)
    requires x < 5 && y < 5
    ensures (5 * x + y) / 5 == x && (5 * x + y) % 5 == y
  {
  }

  lemma PiNumber(x: nat, y: nat)
    requires x < 5 && y < 5
    ensures PiFrom(5 * x + y) == 5 * ((x + 3 * y) % 5) + x
  {
    RowColumn(x, y);
  }

  lemma PiAt(s: State, x: nat, y: nat)
    requires x < 5 && y < 5
    ensures Pi(s)[5 * x + y] == s[5 * ((x + 3 * y) % 5) + x]
  {
    hide PiFrom;
    PiNumber(x, y);
  }
  /** One step of the walk that defines rho: from lane (x, y) to lane (y, 2x + 3y). */
  function Stride(k: nat): (k': nat)
    ensures k' < 25
  {
    At(k % 5, 2 * (k / 5) + 3 * (k % 5))
  }

  /** The lane reached after `t` steps from (1, 0). */
  function Walk(t: nat): (k: nat)
    ensures k < 25
  {
    if t == 0 then At(1, 0) else Stride(Walk(t - 1))
  }

  function WalkTable(): (w: seq<nat>)
    ensures |w| == 24
  {
    [5, 2, 11, 7, 13, 18, 15, 1, 8, 16, 9, 24, 20, 3, 19, 23, 17, 12, 10, 4, 22, 14, 21, 6]
  }

  lemma StrideOf(x: nat, y: nat)
    requires x < 5 && y < 5
    ensures Stride(5 * x + y) == 5 * y + (2 * x + 3 * y) % 5
  {
    RowColumn(x, y);
  }

  lemma WalkTableEarly(t: nat)
    requires 0 < t < 12
    ensures WalkTable()[t] == Stride(WalkTable()[t - 1])
  {
    hide Stride;
    StrideOf(1, 0); StrideOf(0, 2); StrideOf(2, 1); StrideOf(1, 2); StrideOf(2, 3); StrideOf(3, 3);
    StrideOf(3, 0); StrideOf(0, 1); StrideOf(1, 3); StrideOf(3, 1); StrideOf(1, 4); StrideOf(4, 4);
  }

  lemma WalkTableLate(t: nat)
    requires 12 <= t < 24
    ensures WalkTable()[t] == Stride(WalkTable()[t - 1])
  {
    hide Stride;
    StrideOf(4, 4); StrideOf(4, 0); StrideOf(0, 3); StrideOf(3, 4); StrideOf(4, 3); StrideOf(3, 2);
    StrideOf(2, 2); StrideOf(2, 0); StrideOf(0, 4); StrideOf(4, 2); StrideOf(2, 4); StrideOf(4, 1); StrideOf(1, 1);
  }

  lemma WalkTableStride(t: nat)
    requires 0 < t < 24
    ensures WalkTable()[t] == Stride(WalkTable()[t - 1])
  {
    hide WalkTable, Stride;
    if t < 12 {
      WalkTableEarly(t);
    } else {
      WalkTableLate(t);
    }
  }

  lemma WalkTableFirst()
    ensures WalkTable()[0] == At(1, 0)
  {
  }

  lemma {:induction false} WalkTableRight(t: nat)
    requires t < 24
    ensures Walk(t) == WalkTable()[t]
  {
    hide WalkTable, Stride;
    WalkTableFirst();
    if t == 0 {
    } else {
      WalkTableRight(t - 1);
      WalkTableStride(t);
    }
  }

  /** 1, 3, 6, 10, ... */
  function Triangle(t: nat): nat {
    if t == 0 then 1 else Triangle(t - 1) + t + 1
  }

  lemma {:induction false} TriangleIs(t: nat)
    ensures 2 * Triangle(t) == (t + 1) * (t + 2)
  {
    if t == 0 {
    } else {
      TriangleIs(t - 1);
      assert (t + 1) * (t + 2) == t * (t + 1) + 2 * (t + 1);
    }
  }

  function TriangleTable(): (m: seq<nat>)
    ensures |m| == 24
  {
    [1, 3, 6, 10, 15, 21, 28, 36, 45, 55, 2, 14, 27, 41, 56, 8, 25, 43, 62, 18, 39, 61, 20, 44]
  }

  lemma OffsetAlongEarly(t: nat)
    requires t < 12
    ensures WalkTable()[t] < 25 && Offsets()[WalkTable()[t]] == TriangleTable()[t]
  {
  }

  lemma OffsetAlongLate(t: nat)
    requires 12 <= t < 24
    ensures WalkTable()[t] < 25 && Offsets()[WalkTable()[t]] == TriangleTable()[t]
  {
  }

  lemma TriangleTableStep(t: nat)
    requires 0 < t < 24
    ensures TriangleTable()[t] == Mod64(TriangleTable()[t - 1] + t + 1)
  {
  }

  function Mod64(n: nat): nat {
    n % 64
  }

  lemma AddModulo(a: nat, b: nat)
    ensures Mod64(a + b) == Mod64(Mod64(a) + b)
  {
    var q, c := a / 64, a % 64 + b;
    assert a + b == 64 * (q + c / 64) + c % 64;
  }

  lemma TriangleTableFirst()
    ensures TriangleTable()[0] == 1 && Mod64(1) == 1
  {
  }

  lemma {:induction false} TriangleTableIs(t: nat)
    requires t < 24
    ensures TriangleTable()[t] == Mod64(Triangle(t))
  {
    hide TriangleTable, Mod64;
    TriangleTableFirst();
    if t == 0 {
    } else {
      TriangleTableIs(t - 1);
      TriangleTableStep(t);
      AddModulo(Triangle(t - 1), t + 1);
    }
  }

  /** The walk meets the offsets in the order of the triangular numbers. */
  lemma {:induction false} OffsetsTriangular(t: nat)
    requires t < 24
    ensures Offsets()[Walk(t)] == Triangle(t) % 64 && 2 * Triangle(t) == (t + 1) * (t + 2)
  {
    hide WalkTable, Offsets, Walk, Triangle, TriangleTable;
    WalkTableRight(t);
    if t < 12 {
      OffsetAlongEarly(t);
    } else {
      OffsetAlongLate(t);
    }
    TriangleTableIs(t);
    TriangleIs(t);
  }

  function RoundConstants(): (rc: seq<Lane>)
    ensures |rc| == 24
  {
    [
      0x0000000000000001, 0x0000000000008082, 0x800000000000808A, 0x8000000080008000,
      0x000000000000808B, 0x0000000080000001, 0x8000000080008081, 0x8000000000008009,
      0x000000000000008A, 0x0000000000000088, 0x0000000080008009, 0x000000008000000A,
      0x000000008000808B, 0x800000000000008B, 0x8000000000008089, 0x8000000000008003,
      0x8000000000008002, 0x8000000000000080, 0x000000000000800A, 0x800000008000000A,
      0x8000000080008081, 0x8000000000008080, 0x0000000080000001, 0x8000000080008008]
  }

  // The round constants, derived as section 3.2.5 does from a shift register of eight bits.

  function Register(r: bv8): bv8 {
    if r & 0x80 != 0 then (r << 1) ^ 0x71 else r << 1
  }

  /** The register after `t` steps; its low bit is rc(t). */
  function Lfsr(t: nat): bv8 {
    if t == 0 then 1 else Register(Lfsr(t - 1))
  }

  function Seven(r: bv8): bv8 {
    Register(Register(Register(Register(Register(Register(Register(r)))))))
  }

  function BitFor(r: bv8, mask: Lane): Lane {
    if r & 1 != 0 then mask else 0
  }

  /** The constant of a round, from the register when the round starts: rc(j + 7i) goes to bit 2^j - 1. */
  function ConstantFrom(r0: bv8): Lane {
    var r1 := Register(r0);
    var r2 := Register(r1);
    var r3 := Register(r2);
    var r4 := Register(r3);
    var r5 := Register(r4);
    BitFor(r0, 1) | BitFor(r1, 2) | BitFor(r2, 8) | BitFor(r3, 0x80) | BitFor(r4, 0x8000) | BitFor(r5, 0x8000_0000)
    | BitFor(Register(r5), 0x8000_0000_0000_0000)
  }

  lemma SevenSteps(t: nat)
    ensures Lfsr(t + 7) == Seven(Lfsr(t))
  {
    hide Register;
    assert Lfsr(t + 2) == Register(Register(Lfsr(t)));
    assert Lfsr(t + 4) == Register(Register(Lfsr(t + 2)));
    assert Lfsr(t + 6) == Register(Register(Lfsr(t + 4)));
  }

  /** The register at the start of each round. */
  function Registers(): (r: seq<bv8>)
    ensures |r| == 24
  {
    [0x01, 0x80, 0xd8, 0x1a, 0xdf, 0x09, 0x35, 0x4f, 0xca, 0x70, 0x41, 0xec,
     0xd5, 0xcd, 0x63, 0xab, 0xaa, 0x2a, 0xf2, 0xe8, 0x37, 0x3e, 0x0b, 0x44]
  }

  lemma RegistersStep(i: nat)
    requires i < 23
    ensures Registers()[i + 1] == Seven(Registers()[i])
  {
  }

  lemma ConstantsFirst(i: nat)
    requires i < 6
    ensures RoundConstants()[i] == ConstantFrom(Registers()[i])
  {
  }

  lemma ConstantsSecond(i: nat)
    requires 6 <= i < 12
    ensures RoundConstants()[i] == ConstantFrom(Registers()[i])
  {
  }

  lemma ConstantsThird(i: nat)
    requires 12 <= i < 18
    ensures RoundConstants()[i] == ConstantFrom(Registers()[i])
  {
  }

  lemma ConstantsFourth(i: nat)
    requires 18 <= i < 24
    ensures RoundConstants()[i] == ConstantFrom(Registers()[i])
  {
  }

  lemma RegistersFirst()
    ensures Registers()[0] == Lfsr(0)
  {
  }

  lemma {:induction false} RegistersAre(i: nat)
    requires i < 24
    ensures Registers()[i] == Lfsr(7 * i)
  {
    hide Registers, Seven, Lfsr;
    RegistersFirst();
    if i == 0 {
    } else {
      RegistersAre(i - 1);
      RegistersStep(i - 1);
      SevenSteps(7 * i - 7);
    }
  }

  /** The 24 constants are what the register gives. */
  lemma {:induction false} RoundConstantsDerived(i: nat)
    requires i < 24
    ensures RoundConstants()[i] == ConstantFrom(Lfsr(7 * i))
  {
    hide Registers, Lfsr, ConstantFrom, RoundConstants;
    RegistersAre(i);
    if i < 6 {
      ConstantsFirst(i);
    } else if i < 12 {
      ConstantsSecond(i);
    } else if i < 18 {
      ConstantsThird(i);
    } else {
      ConstantsFourth(i);
    }
  }

  /** One round for each constant. */
  function Rounds(s: State, rc: seq<Lane>): State {
    if |rc| == 0 then s else Round(Rounds(s, rc[..|rc| - 1]), rc[|rc| - 1])
  }

  function KeccakF(s: State): State {
    Rounds(s, RoundConstants())
  }

  lemma {:induction false} RoundsJoin(s: State, a: seq<Lane>, b: seq<Lane>)
    ensures Rounds(s, a + b) == Rounds(Rounds(s, a), b)
    decreases |b|
  {
    hide Round;
    if |b| == 0 {
      assert a + b == a;
    } else {
      RoundsJoin(s, a, b[..|b| - 1]);
      assert (a + b)[..|a + b| - 1] == a + b[..|b| - 1];
    }
  }

  /** Lane (x, y) is the word x + 5y of the state as a string (section 3.1.2). */
  function WordOf(k: nat): (i: nat)
    ensures k < 25 ==> i < 25
  {
    k / 5 + 5 * (k % 5)
  }

  /** A lane's word, from eight octets, least significant first. */
  function LaneLE(b: seq<Octet>): Lane
    requires |b| == 8
  {
    (b[0] as bv64) | ((b[1] as bv64) << 8) | ((b[2] as bv64) << 16) | ((b[3] as bv64) << 24) | ((b[4] as bv64) << 32)
    | ((b[5] as bv64) << 40) | ((b[6] as bv64) << 48) | ((b[7] as bv64) << 56)
  }

  /** Lane `k` after a block has been added to the state. */
  function Added(s: State, block: seq<Octet>, k: nat): Lane
    requires k < 25
  {
    var i := 8 * WordOf(k);
    if i + 8 <= |block| then Xor(s[k], LaneLE(block[i..i + 8])) else s[k]
  }

  function AddBlock(s: State, block: seq<Octet>): State {
    seq(25, k requires 0 <= k < 25 => Added(s, block, k))
  }

  /** One step of the sponge: add a block, permute (section 4). */
  function SpongeStep(s: State, block: seq<Octet>): State {
    KeccakF(AddBlock(s, block))
  }

  function OctetsOfLane(v: Lane): (b: seq<Octet>)
    ensures |b| == 8
  {
    [(v & 0xff) as bv8, ((v >> 8) & 0xff) as bv8, ((v >> 16) & 0xff) as bv8, ((v >> 24) & 0xff) as bv8,
     ((v >> 32) & 0xff) as bv8, ((v >> 40) & 0xff) as bv8, ((v >> 48) & 0xff) as bv8, ((v >> 56) & 0xff) as bv8]
  }

  /** The first `n` words of the state as octets. */
  function Squeezed(s: State, n: nat): (b: seq<Octet>)
    requires n <= 25
    ensures |b| == 8 * n
  {
    if n == 0 then [] else Squeezed(s, n - 1) + OctetsOfLane(s[PlaceOf(n - 1)])
  }

  /** The lane that is word `i` of the state. */
  function PlaceOf(i: nat): (k: nat)
    requires i < 25
    ensures k < 25
  {
    i / 5 + 5 * (i % 5)
  }

  /** A lane's octets, the low one first, both ways. */
  lemma LaneOctets(b: seq<Octet>)
    requires |b| == 8
    ensures (LaneLE(b) & 0xff) as bv8 == b[0] && ((LaneLE(b) >> 8) & 0xff) as bv8 == b[1]
    ensures ((LaneLE(b) >> 16) & 0xff) as bv8 == b[2] && ((LaneLE(b) >> 24) & 0xff) as bv8 == b[3]
    ensures ((LaneLE(b) >> 32) & 0xff) as bv8 == b[4] && ((LaneLE(b) >> 40) & 0xff) as bv8 == b[5]
    ensures ((LaneLE(b) >> 48) & 0xff) as bv8 == b[6] && ((LaneLE(b) >> 56) & 0xff) as bv8 == b[7]
  {
  }

  lemma LaneBack(v: Lane)
    ensures LaneLE(OctetsOfLane(v)) == v
  {
  }

  lemma WordAt(x: nat, y: nat)
    requires x < 5 && y < 5
    ensures 5 * x + y < 25 && WordOf(5 * x + y) == x + 5 * y
  {
  }

  /** Octets 8w to 8w + 7 of a block go into lane (x, y) with w = x + 5y, and the lanes they do not reach stay. */
  lemma AddBlockPlaces(s: State, block: seq<Octet>, x: nat, y: nat)
    requires x < 5 && y < 5
    ensures
      var w, k := x + 5 * y, 5 * x + y;
      AddBlock(s, block)[k] ==
        if 8 * w + 8 <= |block| then Xor(s[k], LaneLE(block[8 * w..8 * w + 8])) else s[k]
  {
    hide Xor, LaneLE, WordOf;
    WordAt(x, y);
    assert AddBlock(s, block)[5 * x + y] == Added(s, block, 5 * x + y);
  }

  lemma PlaceAt(x: nat, y: nat)
    requires x < 5 && y < 5
    ensures x + 5 * y < 25 && PlaceOf(x + 5 * y) == 5 * x + y
  {
  }

  /** And they come out in the same places. */
  lemma {:induction false} SqueezedPlaces(s: State, n: nat, x: nat, y: nat)
    requires x < 5 && y < 5 && x + 5 * y < n <= 25
    ensures
      var w := x + 5 * y;
      Squeezed(s, n)[8 * w..8 * w + 8] == OctetsOfLane(s[5 * x + y])
    decreases n
  {
    hide OctetsOfLane, PlaceOf;
    PlaceAt(x, y);
    var w, front := x + 5 * y, Squeezed(s, n - 1);
    var last := OctetsOfLane(s[PlaceOf(n - 1)]);
    if w == n - 1 {
      assert (front + last)[8 * w..8 * w + 8] == last;
    } else {
      SqueezedPlaces(s, n - 1, x, y);
      assert (front + last)[8 * w..8 * w + 8] == front[8 * w..8 * w + 8];
    }
  }
}
