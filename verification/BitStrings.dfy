/** Octets as strings of bits, and the octet that ends a message with extra bits. */
module BitStrings {
  import opened Blocks
  import opened Words

  /** The bits of an octet, in either order. */
  function BitsOf(msb: bool, o: Octet): (b: seq<bool>)
    ensures |b| == 8
  {
    if msb then
      [o & 128 != 0, o & 64 != 0, o & 32 != 0, o & 16 != 0, o & 8 != 0, o & 4 != 0, o & 2 != 0, o & 1 != 0]
    else
      [o & 1 != 0, o & 2 != 0, o & 4 != 0, o & 8 != 0, o & 16 != 0, o & 32 != 0, o & 64 != 0, o & 128 != 0]
  }

  /** An octet's bits are its value in binary, the heaviest first or last. */
  lemma BitsWeigh(o: Octet)
    ensures
      var b := BitsOf(true, o);
      Value(o) == 128 * OneIf(b[0]) + 64 * OneIf(b[1]) + 32 * OneIf(b[2]) + 16 * OneIf(b[3]) + 8 * OneIf(b[4])
                  + 4 * OneIf(b[5]) + 2 * OneIf(b[6]) + OneIf(b[7])
    ensures
      var b := BitsOf(false, o);
      Value(o) == OneIf(b[0]) + 2 * OneIf(b[1]) + 4 * OneIf(b[2]) + 8 * OneIf(b[3]) + 16 * OneIf(b[4])
                  + 32 * OneIf(b[5]) + 64 * OneIf(b[6]) + 128 * OneIf(b[7])
  {
  }

  function Bits(msb: bool, s: seq<Octet>): (b: seq<bool>)
    ensures |b| == 8 * |s|
  {
    if |s| == 0 then [] else Bits(msb, s[..|s| - 1]) + BitsOf(msb, s[|s| - 1])
  }

  function Falses(n: nat): (b: seq<bool>)
    ensures |b| == n && forall i :: 0 <= i < n ==> !b[i]
  {
    if n == 0 then [] else Falses(n - 1) + [false]
  }

  lemma {:induction false} BitsJoin(msb: bool, a: seq<Octet>, b: seq<Octet>)
    ensures Bits(msb, a + b) == Bits(msb, a) + Bits(msb, b)
    decreases |b|
  {
    hide BitsOf;
    if |b| == 0 {
      assert a + b == a;
    } else {
      BitsJoin(msb, a, b[..|b| - 1]);
      assert (a + b)[..|a + b| - 1] == a + b[..|b| - 1];
    }
  }

  lemma {:induction false} BitsOfZeros(msb: bool, n: nat)
    ensures Bits(msb, Zeros(n)) == Falses(8 * n)
  {
    if n == 0 {
    } else {
      BitsOfZeros(msb, n - 1);
      assert Zeros(n)[..n - 1] == Zeros(n - 1);
      assert Falses(8 * n) == Falses(8 * (n - 1)) + BitsOf(msb, 0);
    }
  }

  lemma {:induction false} SingleBits(msb: bool, o: Octet)
    ensures Bits(msb, [o]) == BitsOf(msb, o)
  {
    assert Bits(msb, []) == [];
  }

  lemma FalsesSplit(a: nat, b: nat)
    ensures Falses(a) + Falses(b) == Falses(a + b)
  {
  }

  /** The `n` extra bits of a message: the high bits of an octet. */
  function TopBits(ub: Octet, n: nat): seq<bool>
    requires n < 8
  {
    BitsOf(false, ub)[8 - n..]
  }

  /** "(0x100 | (ub & 0xFF)) >> (8 - n)". */
  function ExtraOctet(ub: Octet, n: nat): Octet
    requires n < 8
  {
    (((0x100 | (ub as bv16)) >> (8 - n)) & 0xff) as bv8
  }

  /** Seven zeros or fewer. */
  lemma FewFalses()
    ensures Falses(0) == [] && Falses(1) == [false] && Falses(2) == [false, false]
    ensures Falses(3) == [false, false, false] && Falses(4) == [false, false, false, false]
    ensures Falses(5) == [false, false, false, false, false]
    ensures Falses(6) == [false, false, false, false, false, false]
    ensures Falses(7) == [false, false, false, false, false, false, false]
  {
  }

  lemma ExtraShift(ub: Octet, n: nat)
    requires n < 8
    ensures ExtraOctet(ub, n) == (
              if n == 0 then 1
              else if n == 1 then (ub >> 7) | 2
              else if n == 2 then (ub >> 6) | 4
              else if n == 3 then (ub >> 5) | 8
              else if n == 4 then (ub >> 4) | 16
              else if n == 5 then (ub >> 3) | 32
              else if n == 6 then (ub >> 2) | 64
              else (ub >> 1) | 128)
  {
  }

  /** Its bits one by one. */
  lemma ExtraList(ub: Octet, n: nat, b: seq<bool>)
    requires n < 8 && b == BitsOf(false, ub)
    ensures BitsOf(false, ExtraOctet(ub, n)) == (
              if n == 0 then [true, false, false, false, false, false, false, false]
              else if n == 1 then [b[7], true, false, false, false, false, false, false]
              else if n == 2 then [b[6], b[7], true, false, false, false, false, false]
              else if n == 3 then [b[5], b[6], b[7], true, false, false, false, false]
              else if n == 4 then [b[4], b[5], b[6], b[7], true, false, false, false]
              else if n == 5 then [b[3], b[4], b[5], b[6], b[7], true, false, false]
              else if n == 6 then [b[2], b[3], b[4], b[5], b[6], b[7], true, false]
              else [b[1], b[2], b[3], b[4], b[5], b[6], b[7], true])
  {
    hide ExtraOctet;
    ExtraShift(ub, n);
  }

  lemma TopList(b: seq<bool>, n: nat)
    requires |b| == 8 && n < 8
    ensures b[8 - n..] + [true] + Falses(7 - n) == (
              if n == 0 then [true, false, false, false, false, false, false, false]
              else if n == 1 then [b[7], true, false, false, false, false, false, false]
              else if n == 2 then [b[6], b[7], true, false, false, false, false, false]
              else if n == 3 then [b[5], b[6], b[7], true, false, false, false, false]
              else if n == 4 then [b[4], b[5], b[6], b[7], true, false, false, false]
              else if n == 5 then [b[3], b[4], b[5], b[6], b[7], true, false, false]
              else if n == 6 then [b[2], b[3], b[4], b[5], b[6], b[7], true, false]
              else [b[1], b[2], b[3], b[4], b[5], b[6], b[7], true])
  {
    hide Falses;
    FewFalses();
  }

  /** It holds the extra bits, then a one, then zeros. */
  lemma {:induction false} ExtraBits(ub: Octet, n: nat)
    requires n < 8
    ensures BitsOf(false, ExtraOctet(ub, n)) == TopBits(ub, n) + [true] + Falses(7 - n)
  {
    hide BitsOf, ExtraOctet, Falses;
    ExtraList(ub, n, BitsOf(false, ub));
    TopList(BitsOf(false, ub), n);
  }

  /** "((ub & -z) | z) & 0xFF" for "z = 0x80 >> n": the high `n` bits of `ub`, a one, zeros. */
  function MarkOctet(ub: Octet, n: nat): Octet
    requires n < 8
  {
    var z: Octet := 0x80 >> n;
    (ub & !(z - 1)) | z
  }

  lemma MarkList(ub: Octet, n: nat, b: seq<bool>)
    requires n < 8 && b == BitsOf(true, ub)
    ensures BitsOf(true, MarkOctet(ub, n)) == (
              if n == 0 then [true, false, false, false, false, false, false, false]
              else if n == 1 then [b[0], true, false, false, false, false, false, false]
              else if n == 2 then [b[0], b[1], true, false, false, false, false, false]
              else if n == 3 then [b[0], b[1], b[2], true, false, false, false, false]
              else if n == 4 then [b[0], b[1], b[2], b[3], true, false, false, false]
              else if n == 5 then [b[0], b[1], b[2], b[3], b[4], true, false, false]
              else if n == 6 then [b[0], b[1], b[2], b[3], b[4], b[5], true, false]
              else [b[0], b[1], b[2], b[3], b[4], b[5], b[6], true])
  {
  }

  lemma {:induction false} FrontList(b: seq<bool>, n: nat)
    requires |b| == 8 && n < 8
    ensures b[..n] + [true] + Falses(7 - n) == (
              if n == 0 then [true, false, false, false, false, false, false, false]
              else if n == 1 then [b[0], true, false, false, false, false, false, false]
              else if n == 2 then [b[0], b[1], true, false, false, false, false, false]
              else if n == 3 then [b[0], b[1], b[2], true, false, false, false, false]
              else if n == 4 then [b[0], b[1], b[2], b[3], true, false, false, false]
              else if n == 5 then [b[0], b[1], b[2], b[3], b[4], true, false, false]
              else if n == 6 then [b[0], b[1], b[2], b[3], b[4], b[5], true, false]
              else [b[0], b[1], b[2], b[3], b[4], b[5], b[6], true])
  {
    hide Falses;
    FewFalses();
  }

  lemma {:induction false} MarkBits(ub: Octet, n: nat)
    requires n < 8
    ensures BitsOf(true, MarkOctet(ub, n)) == BitsOf(true, ub)[..n] + [true] + Falses(7 - n)
  {
    hide BitsOf, MarkOctet, Falses;
    MarkList(ub, n, BitsOf(true, ub));
    FrontList(BitsOf(true, ub), n);
  }
}
