/**
 * The optimised Keccak: lanes are kept under changing names instead of being moved by pi,
 * and six of them are kept complemented so that chi needs few complements.
 */
module Keccak {
  import opened BitStrings
  import opened Blocks
  import opened KeccakStd
  import opened Lanes
  import opened Words

  // ---------------------------------------------------------------------------------
  // Complemented lanes

  function Flip(v: Lane, on: bool): Lane {
    if on then Not(v) else v
  }

  lemma FlipXor(v: Lane, p: bool, w: Lane, q: bool)
    ensures Xor(Flip(v, p), Flip(w, q)) == Flip(Xor(v, w), p != q)
  {
    hide Xor, Not;
    NotXor(v, w);
    XorNot(v, w);
    BothNot(v, w);
  }

  lemma {:induction false} FlipRot(v: Lane, p: bool, n: nat)
    ensures Rot(Flip(v, p), n) == Flip(Rot(v, n), p)
  {
    hide Rot1, Not;
    if n == 0 {
    } else {
      FlipRot(v, p, n - 1);
      Rot1Not(Rot(v, n - 1));
    }
  }

  /** The lanes kept complemented between rounds: a04 a10 a20 a22 a23 a31. */
  predicate Kept(k: nat) {
    k == 4 || k == 5 || k == 10 || k == 12 || k == 13 || k == 16
  }

  /** Those complemented after theta and rho. */
  predicate Spread(k: nat) {
    k == 0 || k == 1 || k == 2 || k == 3 || k == 5 || k == 10 || k == 12 || k == 13 || k == 15 || k == 17 || k == 18
    || k == 19
  }

  /** Those complemented once pi has moved the lanes: a00 a01 a02 a04 a13 a20 a21 a22 a30 a33 a34 a43. */
  predicate Moved(k: nat) {
    k == 0 || k == 1 || k == 2 || k == 4 || k == 8 || k == 10 || k == 11 || k == 12 || k == 15 || k == 18 || k == 19
    || k == 23
  }

  /** The state a program state stands for. */
  function Real(s: State, complemented: nat -> bool): State {
    seq(25, k requires 0 <= k < 25 => Flip(s[k], complemented(k)))
  }

  predicate ColumnOdd(x: nat) {
    x % 5 != 4
  }

  lemma FiveFlips(a: Lane, p: bool, b: Lane, q: bool, c: Lane, r: bool, d: Lane, s: bool, e: Lane, t: bool)
    ensures Xor(Xor(Xor(Xor(Flip(a, p), Flip(b, q)), Flip(c, r)), Flip(d, s)), Flip(e, t))
              == Flip(Xor(Xor(Xor(Xor(a, b), c), d), e), (((p != q) != r) != s) != t)
  {
    hide Flip, Xor;
    FlipXor(a, p, b, q);
    FlipXor(Xor(a, b), p != q, c, r);
    FlipXor(Xor(Xor(a, b), c), (p != q) != r, d, s);
    FlipXor(Xor(Xor(Xor(a, b), c), d), ((p != q) != r) != s, e, t);
  }

  lemma ColumnOddCounts(x: nat)
    ensures ColumnOdd(x)
              == ((((Kept(At(x, 0)) != Kept(At(x, 1))) != Kept(At(x, 2))) != Kept(At(x, 3))) != Kept(At(x, 4)))
  {
  }

  lemma ColumnFlip(s: State, x: nat)
    ensures Column(Real(s, Kept), x) == Flip(Column(s, x), ColumnOdd(x))
  {
    hide Flip, Xor, Kept, ColumnOdd, At;
    var a, b, c, d, e := At(x, 0), At(x, 1), At(x, 2), At(x, 3), At(x, 4);
    FiveFlips(s[a], Kept(a), s[b], Kept(b), s[c], Kept(c), s[d], Kept(d), s[e], Kept(e));
    ColumnOddCounts(x);
  }

  lemma SpreadByTheta(k: nat)
    requires k < 25
    ensures Spread(k) == (Kept(k) != (ColumnOdd(k / 5 + 4) != ColumnOdd(k / 5 + 1)))
  {
  }

  lemma ThetaLane(s: State, k: nat)
    requires k < 25
    ensures Theta(Real(s, Kept))[k] == Flip(Theta(s)[k], Spread(k))
  {
    hide Flip, Xor, Column, Rot, Kept, Spread, ColumnOdd;
    var l, r := k / 5 + 4, k / 5 + 1;
    ColumnFlip(s, l);
    ColumnFlip(s, r);
    FlipRot(Column(s, r), ColumnOdd(r), 1);
    FlipXor(Column(s, l), ColumnOdd(l), Rot(Column(s, r), 1), ColumnOdd(r));
    FlipXor(s[k], Kept(k), Xor(Column(s, l), Rot(Column(s, r), 1)), ColumnOdd(l) != ColumnOdd(r));
    SpreadByTheta(k);
  }

  lemma ThetaSpreads(s: State)
    ensures Theta(Real(s, Kept)) == Real(Theta(s), Spread)
  {
    hide Theta, Flip, Spread;
    forall k | 0 <= k < 25 ensures Theta(Real(s, Kept))[k] == Real(Theta(s), Spread)[k] {
      ThetaLane(s, k);
    }
  }

  lemma RhoSpreads(s: State)
    ensures Rho(Real(s, Spread)) == Real(Rho(s), Spread)
  {
    hide Flip, Rot, Offsets, Spread;
    forall k | 0 <= k < 25 ensures Rho(Real(s, Spread))[k] == Real(Rho(s), Spread)[k] {
      FlipRot(s[k], Spread(k), Offsets()[k]);
    }
  }

  lemma MovedByPi(k: nat)
    requires k < 25
    ensures Moved(k) == Spread(PiFrom(k))
  {
    hide PiFrom;
    PiNumber(0, 0); PiNumber(0, 1); PiNumber(0, 2); PiNumber(0, 3); PiNumber(0, 4);
    PiNumber(1, 0); PiNumber(1, 1); PiNumber(1, 2); PiNumber(1, 3); PiNumber(1, 4);
    PiNumber(2, 0); PiNumber(2, 1); PiNumber(2, 2); PiNumber(2, 3); PiNumber(2, 4);
    PiNumber(3, 0); PiNumber(3, 1); PiNumber(3, 2); PiNumber(3, 3); PiNumber(3, 4);
    PiNumber(4, 0); PiNumber(4, 1); PiNumber(4, 2); PiNumber(4, 3); PiNumber(4, 4);
  }

  lemma PiMoves(s: State)
    ensures Pi(Real(s, Spread)) == Real(Pi(s), Moved)
  {
    hide Flip, Spread, Moved;
    forall k | 0 <= k < 25 ensures Pi(Real(s, Spread))[k] == Real(Pi(s), Moved)[k] {
      MovedByPi(k);
    }
  }

  // ---------------------------------------------------------------------------------
  // Chi with few complements

  function KhiXo(a: Lane, b: Lane, c: Lane): Lane {
    Xor(a, b | c)
  }

  function KhiXa(a: Lane, b: Lane, c: Lane): Lane {
    Xor(a, b & c)
  }

  lemma NotNot(a: Lane)
    ensures Not(Not(a)) == a
  {
  }

  lemma DeMorgan(b: Lane, c: Lane)
    ensures b | Not(c) == Not(Not(b) & c)
  {
  }

  // The four ways the rows meet chi: by or and by and, the result complemented or not.

  lemma ByOr(a: Lane, b: Lane, c: Lane)
    ensures KhiXo(Not(a), b, Not(c)) == ChiLane(a, b, c)
  {
    hide Not, Xor;
    DeMorgan(b, c);
    BothNot(a, Not(b) & c);
  }

  lemma ByOrFlipped(a: Lane, b: Lane, c: Lane)
    ensures KhiXo(a, b, Not(c)) == Not(ChiLane(a, b, c))
  {
    hide Not, Xor;
    DeMorgan(b, c);
    XorNot(a, Not(b) & c);
  }

  lemma ByAnd(a: Lane, b: Lane, c: Lane)
    ensures KhiXa(a, Not(b), c) == ChiLane(a, b, c)
  {
    hide Not, Xor;
  }

  lemma ByAndFlipped(a: Lane, b: Lane, c: Lane)
    ensures KhiXa(Not(a), Not(b), c) == Not(ChiLane(a, b, c))
  {
    hide Not, Xor;
    NotXor(a, Not(b) & c);
  }

  /** Row 0, the lanes standing for `r0` to `r4`. */
  method KhiRow0(b0: Lane, b1: Lane, b2: Lane, b3: Lane, b4: Lane,
                 ghost r0: Lane, ghost r1: Lane, ghost r2: Lane, ghost r3: Lane, ghost r4: Lane)
    returns (c0: Lane, c1: Lane, c2: Lane, c3: Lane, c4: Lane)
    requires b0 == Not(r0) && b1 == r1 && b2 == Not(r2) && b3 == Not(r3) && b4 == r4
    ensures c0 == ChiLane(r0, r1, r2)
    ensures c1 == Not(ChiLane(r1, r2, r3))
    ensures c2 == Not(ChiLane(r2, r3, r4))
    ensures c3 == ChiLane(r3, r4, r0)
    ensures c4 == ChiLane(r4, r0, r1)
  {
    hide Not, ChiLane, KhiXo, KhiXa;
    NotNot(r2);
    ByOr(r0, r1, r2);
    ByOrFlipped(r1, r2, r3);
    ByAndFlipped(r2, r3, r4);
    ByOr(r3, r4, r0);
    ByAnd(r4, r0, r1);
    var bnn := Not(b2);
    c0 := KhiXo(b0, b1, b2);
    c1 := KhiXo(b1, bnn, b3);
    c2 := KhiXa(b2, b3, b4);
    c3 := KhiXo(b3, b4, b0);
    c4 := KhiXa(b4, b0, b1);
  }

  /** Row 1, the lanes standing for `r0` to `r4`. */
  method KhiRow1(b0: Lane, b1: Lane, b2: Lane, b3: Lane, b4: Lane,
                 ghost r0: Lane, ghost r1: Lane, ghost r2: Lane, ghost r3: Lane, ghost r4: Lane)
    returns (c0: Lane, c1: Lane, c2: Lane, c3: Lane, c4: Lane)
    requires b0 == Not(r0) && b1 == r1 && b2 == Not(r2) && b3 == r3 && b4 == r4
    ensures c0 == ChiLane(r0, r1, r2)
    ensures c1 == ChiLane(r1, r2, r3)
    ensures c2 == ChiLane(r2, r3, r4)
    ensures c3 == Not(ChiLane(r3, r4, r0))
    ensures c4 == ChiLane(r4, r0, r1)
  {
    hide Not, ChiLane, KhiXo, KhiXa;
    ByOr(r0, r1, r2);
    ByAnd(r1, r2, r3);
    ByOr(r2, r3, r4);
    ByOrFlipped(r3, r4, r0);
    ByAnd(r4, r0, r1);
    var bnn := Not(b4);
    c0 := KhiXo(b0, b1, b2);
    c1 := KhiXa(b1, b2, b3);
    c2 := KhiXo(b2, b3, bnn);
    c3 := KhiXo(b3, b4, b0);
    c4 := KhiXa(b4, b0, b1);
  }

  /** Row 2, the lanes standing for `r0` to `r4`. */
  method KhiRow2(b0: Lane, b1: Lane, b2: Lane, b3: Lane, b4: Lane,
                 ghost r0: Lane, ghost r1: Lane, ghost r2: Lane, ghost r3: Lane, ghost r4: Lane)
    returns (c0: Lane, c1: Lane, c2: Lane, c3: Lane, c4: Lane)
    requires b0 == Not(r0) && b1 == r1 && b2 == Not(r2) && b3 == r3 && b4 == r4
    ensures c0 == ChiLane(r0, r1, r2)
    ensures c1 == ChiLane(r1, r2, r3)
    ensures c2 == Not(ChiLane(r2, r3, r4))
    ensures c3 == ChiLane(r3, r4, r0)
    ensures c4 == ChiLane(r4, r0, r1)
  {
    hide Not, ChiLane, KhiXo, KhiXa;
    ByOr(r0, r1, r2);
    ByAnd(r1, r2, r3);
    ByAndFlipped(r2, r3, r4);
    ByOr(r3, r4, r0);
    ByAnd(r4, r0, r1);
    var bnn := Not(b3);
    c0 := KhiXo(b0, b1, b2);
    c1 := KhiXa(b1, b2, b3);
    c2 := KhiXa(b2, bnn, b4);
    c3 := KhiXo(bnn, b4, b0);
    c4 := KhiXa(b4, b0, b1);
  }

  /** Row 3, the lanes standing for `r0` to `r4`. */
  method KhiRow3(b0: Lane, b1: Lane, b2: Lane, b3: Lane, b4: Lane,
                 ghost r0: Lane, ghost r1: Lane, ghost r2: Lane, ghost r3: Lane, ghost r4: Lane)
    returns (c0: Lane, c1: Lane, c2: Lane, c3: Lane, c4: Lane)
    requires b0 == r0 && b1 == Not(r1) && b2 == r2 && b3 == Not(r3) && b4 == Not(r4)
    ensures c0 == ChiLane(r0, r1, r2)
    ensures c1 == ChiLane(r1, r2, r3)
    ensures c2 == Not(ChiLane(r2, r3, r4))
    ensures c3 == ChiLane(r3, r4, r0)
    ensures c4 == ChiLane(r4, r0, r1)
  {
    hide Not, ChiLane, KhiXo, KhiXa;
    NotNot(r3);
    ByAnd(r0, r1, r2);
    ByOr(r1, r2, r3);
    ByOrFlipped(r2, r3, r4);
    ByAnd(r3, r4, r0);
    ByOr(r4, r0, r1);
    var bnn := Not(b3);
    c0 := KhiXa(b0, b1, b2);
    c1 := KhiXo(b1, b2, b3);
    c2 := KhiXo(b2, bnn, b4);
    c3 := KhiXa(bnn, b4, b0);
    c4 := KhiXo(b4, b0, b1);
  }

  /** Row 4, the lanes standing for `r0` to `r4`. */
  method KhiRow4(b0: Lane, b1: Lane, b2: Lane, b3: Lane, b4: Lane,
                 ghost r0: Lane, ghost r1: Lane, ghost r2: Lane, ghost r3: Lane, ghost r4: Lane)
    returns (c0: Lane, c1: Lane, c2: Lane, c3: Lane, c4: Lane)
    requires b0 == Not(r0) && b1 == r1 && b2 == r2 && b3 == Not(r3) && b4 == r4
    ensures c0 == Not(ChiLane(r0, r1, r2))
    ensures c1 == ChiLane(r1, r2, r3)
    ensures c2 == ChiLane(r2, r3, r4)
    ensures c3 == ChiLane(r3, r4, r0)
    ensures c4 == ChiLane(r4, r0, r1)
  {
    hide Not, ChiLane, KhiXo, KhiXa;
    ByAndFlipped(r0, r1, r2);
    ByOr(r1, r2, r3);
    ByAnd(r2, r3, r4);
    ByOr(r3, r4, r0);
    ByAnd(r4, r0, r1);
    var bnn := Not(b1);
    c0 := KhiXa(b0, bnn, b2);
    c1 := KhiXo(bnn, b2, b3);
    c2 := KhiXa(b2, b3, b4);
    c3 := KhiXo(b3, b4, b0);
    c4 := KhiXa(b4, b0, b1);
  }

  // ---------------------------------------------------------------------------------
  // The steps, in place

  /** Which lane of the array a lane is kept in: one of the lists P0 to P8. */
  predicate Naming(p: seq<nat>) {
    && |p| == 25
    && (forall k :: 0 <= k < 25 ==> p[k] < 25)
    && (forall j, k :: 0 <= j < k < 25 ==> p[j] != p[k])
  }

  /** The state under a naming. */
  function View(w: State, p: seq<nat>): State
    requires Naming(p)
  {
    seq(25, k requires 0 <= k < 25 => w[p[k]])
  }

  /** "TH_ELT": the effect of theta on one column, from its two neighbours. */
  function ThElt(c0: Lane, c1: Lane, c2: Lane, c3: Lane, c4: Lane,
                 d0: Lane, d1: Lane, d2: Lane, d3: Lane, d4: Lane): Lane {
    Xor(Xor(Rot(Xor(Xor(Xor(d0, d1), d4), Xor(d2, d3)), 1), c4), Xor(Xor(c0, c1), Xor(c2, c3)))
  }

  lemma XorRegroup(d0: Lane, d1: Lane, d2: Lane, d3: Lane, d4: Lane)
    ensures Xor(Xor(Xor(d0, d1), d4), Xor(d2, d3)) == Xor(Xor(Xor(Xor(d0, d1), d2), d3), d4)
  {
    hide Xor;
    var a, b := Xor(d0, d1), Xor(d2, d3);
    XorAssociates(a, d4, b);
    XorCommutes(d4, b);
    XorAssociates(a, b, d4);
    XorAssociates(a, d2, d3);
  }

  lemma XorSplit(r: Lane, c0: Lane, c1: Lane, c2: Lane, c3: Lane, c4: Lane)
    ensures Xor(Xor(r, c4), Xor(Xor(c0, c1), Xor(c2, c3))) == Xor(Xor(Xor(Xor(Xor(c0, c1), c2), c3), c4), r)
  {
    hide Xor;
    var a, b := Xor(c0, c1), Xor(c2, c3);
    XorAssociates(a, c2, c3);
    XorCommutes(Xor(r, c4), Xor(a, b));
    XorCommutes(r, c4);
    XorAssociates(Xor(a, b), c4, r);
  }

  lemma ColumnFrom(s: State, x: nat, k: nat)
    requires k == 5 * (x % 5)
    ensures Column(s, x) == Xor(Xor(Xor(Xor(s[k], s[k + 1]), s[k + 2]), s[k + 3]), s[k + 4])
  {
    hide Xor;
  }

  lemma ThEltIsEffect(s: State, x: nat)
    requires x < 5
    ensures var l, r := 5 * ((x + 4) % 5), 5 * ((x + 1) % 5);
            ThElt(s[l], s[l + 1], s[l + 2], s[l + 3], s[l + 4], s[r], s[r + 1], s[r + 2], s[r + 3], s[r + 4])
              == Effect(s, x)
  {
    hide Xor, Rot, Column;
    var l, r := 5 * ((x + 4) % 5), 5 * ((x + 1) % 5);
    ColumnFrom(s, x + 4, l);
    ColumnFrom(s, x + 1, r);
    XorRegroup(s[r], s[r + 1], s[r + 2], s[r + 3], s[r + 4]);
    XorSplit(Rot(Column(s, x + 1), 1), s[l], s[l + 1], s[l + 2], s[l + 3], s[l + 4]);
  }

  /** "TH_ELT" for column `x`. */
  method ColumnEffect(a: array<Lane>, p: seq<nat>, x: nat) returns (t: Lane)
    requires a.Length == 25 && Naming(p) && x < 5
    ensures t == Effect(View(a[..], p), x)
  {
    hide Effect, ThElt;
    var l, r := 5 * ((x + 4) % 5), 5 * ((x + 1) % 5);
    ThEltIsEffect(View(a[..], p), x);
    t := ThElt(a[p[l]], a[p[l + 1]], a[p[l + 2]], a[p[l + 3]], a[p[l + 4]],
               a[p[r]], a[p[r + 1]], a[p[r + 2]], a[p[r + 3]], a[p[r + 4]]);
  }

  method ThetaInPlace(a: array<Lane>, p: seq<nat>)
    requires a.Length == 25 && Naming(p)
    modifies a
    ensures View(a[..], p) == Theta(View(old(a[..]), p))
  {
    hide Xor, Effect;
    ghost var s := View(a[..], p);
    var t0 := ColumnEffect(a, p, 0);
    var t1 := ColumnEffect(a, p, 1);
    var t2 := ColumnEffect(a, p, 2);
    var t3 := ColumnEffect(a, p, 3);
    var t4 := ColumnEffect(a, p, 4);
    var t := [t0, t1, t2, t3, t4];
    assert forall x :: 0 <= x < 5 ==> t[x] == Effect(s, x);
    AddEffects(a, p, t);
  }

  method AddEffects(a: array<Lane>, p: seq<nat>, t: seq<Lane>)
    requires a.Length == 25 && Naming(p) && |t| == 5
    modifies a
    ensures forall k :: 0 <= k < 25 ==> a[p[k]] == Xor(old(a[p[k]]), t[k / 5])
  {
    hide Xor;
    for k := 0 to 25
      invariant forall j :: 0 <= j < k ==> a[p[j]] == Xor(old(a[p[j]]), t[j / 5])
      invariant forall j :: k <= j < 25 ==> a[p[j]] == old(a[p[j]])
    {
      a[p[k]] := Xor(a[p[k]], t[k / 5]);
    }
  }

  method RhoInPlace(a: array<Lane>, p: seq<nat>)
    requires a.Length == 25 && Naming(p)
    modifies a
    ensures View(a[..], p) == Rho(View(old(a[..]), p))
  {
    hide Rot, Offsets;
    ghost var s := View(a[..], p);
    for k := 0 to 25
      invariant forall j :: 0 <= j < k ==> a[p[j]] == Rot(s[j], Offsets()[j])
      invariant forall j :: k <= j < 25 ==> a[p[j]] == s[j]
    {
      a[p[k]] := Rot(a[p[k]], Offsets()[k]);
    }
  }

  /** The naming that follows `p`: the lane pi moves to (x, y) is called (x, y). */
  function Next(p: seq<nat>): (q: seq<nat>)
    requires |p| == 25
    ensures |q| == 25
  {
    [p[0], p[15], p[5], p[20], p[10], p[6], p[21], p[11], p[1], p[16],
     p[12], p[2], p[17], p[7], p[22], p[18], p[8], p[23], p[13], p[3],
     p[24], p[14], p[4], p[19], p[9]]
  }

  lemma NextByPi(p: seq<nat>, k: nat)
    requires |p| == 25 && k < 25
    ensures Next(p)[k] == p[PiFrom(k)]
  {
    hide PiFrom;
    PiNumber(0, 0); PiNumber(0, 1); PiNumber(0, 2); PiNumber(0, 3); PiNumber(0, 4);
    PiNumber(1, 0); PiNumber(1, 1); PiNumber(1, 2); PiNumber(1, 3); PiNumber(1, 4);
    PiNumber(2, 0); PiNumber(2, 1); PiNumber(2, 2); PiNumber(2, 3); PiNumber(2, 4);
    PiNumber(3, 0); PiNumber(3, 1); PiNumber(3, 2); PiNumber(3, 3); PiNumber(3, 4);
    PiNumber(4, 0); PiNumber(4, 1); PiNumber(4, 2); PiNumber(4, 3); PiNumber(4, 4);
  }

  /** Renaming does the work of pi. */
  lemma RenamedByPi(w: State, p: seq<nat>, q: seq<nat>)
    requires Naming(p) && Naming(q) && q == Next(p)
    ensures View(w, q) == Pi(View(w, p))
  {
    hide PiFrom, Next;
    forall k | 0 <= k < 25 ensures View(w, q)[k] == Pi(View(w, p))[k] {
      NextByPi(p, k);
    }
  }

  /** Lanes `from` and up still stand for the state before chi, the others for the one after. */
  ghost predicate RowsDone(w: State, q: seq<nat>, r: State, n: nat)
    requires Naming(q)
  {
    && (forall k :: 0 <= k < 25 && k % 5 < n ==> w[q[k]] == Flip(Chi(r)[k], Kept(k)))
    && (forall k :: 0 <= k < 25 && k % 5 >= n ==> w[q[k]] == Flip(r[k], Moved(k)))
  }

  lemma AtNear(x: nat, y: nat)
    requires x < 5 && y < 5
    ensures At(x + 1, y) == 5 * ((x + 1) % 5) + y && At(x + 2, y) == 5 * ((x + 2) % 5) + y
  {
  }

  lemma ChiAt(r: State, x: nat, y: nat, k: nat, k1: nat, k2: nat)
    requires x < 5 && y < 5 && k == 5 * x + y && k1 == 5 * ((x + 1) % 5) + y && k2 == 5 * ((x + 2) % 5) + y
    ensures Chi(r)[k] == ChiLane(r[k], r[k1], r[k2])
  {
    hide ChiLane, At;
    RowColumn(x, y);
    AtNear(x, y);
    assert Chi(r)[k] == ChiOf(r, k);
  }

  lemma ChiRow(r: State, y: nat)
    requires y < 5
    ensures Chi(r)[y] == ChiLane(r[y], r[5 + y], r[10 + y])
    ensures Chi(r)[5 + y] == ChiLane(r[5 + y], r[10 + y], r[15 + y])
    ensures Chi(r)[10 + y] == ChiLane(r[10 + y], r[15 + y], r[20 + y])
    ensures Chi(r)[15 + y] == ChiLane(r[15 + y], r[20 + y], r[y])
    ensures Chi(r)[20 + y] == ChiLane(r[20 + y], r[y], r[5 + y])
  {
    hide Chi, ChiLane, At;
    ChiAt(r, 0, y, y, 5 + y, 10 + y);
    ChiAt(r, 1, y, 5 + y, 10 + y, 15 + y);
    ChiAt(r, 2, y, 10 + y, 15 + y, 20 + y);
    ChiAt(r, 3, y, 15 + y, 20 + y, y);
    ChiAt(r, 4, y, 20 + y, y, 5 + y);
  }

  /** A row not yet done, as its five lanes hold it. */
  lemma RowRead(w: State, q: seq<nat>, r: State, y: nat)
    requires Naming(q) && y < 5 && RowsDone(w, q, r, y)
    ensures w[q[y]] == Flip(r[y], Moved(y)) && w[q[5 + y]] == Flip(r[5 + y], Moved(5 + y))
    ensures w[q[10 + y]] == Flip(r[10 + y], Moved(10 + y)) && w[q[15 + y]] == Flip(r[15 + y], Moved(15 + y))
    ensures w[q[20 + y]] == Flip(r[20 + y], Moved(20 + y))
  {
    hide Flip, Moved, Kept, Chi;
  }

  lemma RowWritten(w: State, w': State, q: seq<nat>, r: State, y: nat)
    requires Naming(q) && y < 5 && RowsDone(w, q, r, y)
    requires forall k :: 0 <= k < 25 && k % 5 != y ==> w'[q[k]] == w[q[k]]
    requires w'[q[y]] == Flip(Chi(r)[y], Kept(y)) && w'[q[5 + y]] == Flip(Chi(r)[5 + y], Kept(5 + y))
    requires w'[q[10 + y]] == Flip(Chi(r)[10 + y], Kept(10 + y)) && w'[q[15 + y]] == Flip(Chi(r)[15 + y], Kept(15 + y))
    requires w'[q[20 + y]] == Flip(Chi(r)[20 + y], Kept(20 + y))
    ensures RowsDone(w', q, r, y + 1)
  {
    hide Flip, Moved, Kept, Chi;
    forall k | 0 <= k < 25 && k % 5 == y ensures w'[q[k]] == Flip(Chi(r)[k], Kept(k)) {
      assert k == 5 * (k / 5) + y;
      assert k == y || k == 5 + y || k == 10 + y || k == 15 + y || k == 20 + y;
    }
  }

  /** The five "MOV64" that put a row back. */
  method PutRow(a: array<Lane>, q: seq<nat>, y: nat, c0: Lane, c1: Lane, c2: Lane, c3: Lane, c4: Lane, ghost r: State)
    requires a.Length == 25 && Naming(q) && y < 5 && RowsDone(a[..], q, r, y)
    requires c0 == Flip(Chi(r)[y], Kept(y)) && c1 == Flip(Chi(r)[5 + y], Kept(5 + y))
    requires c2 == Flip(Chi(r)[10 + y], Kept(10 + y)) && c3 == Flip(Chi(r)[15 + y], Kept(15 + y))
    requires c4 == Flip(Chi(r)[20 + y], Kept(20 + y))
    modifies a
    ensures RowsDone(a[..], q, r, y + 1)
  {
    hide Flip, Moved, Kept, Chi, RowsDone;
    ghost var w := a[..];
    a[q[y]], a[q[5 + y]], a[q[10 + y]], a[q[15 + y]], a[q[20 + y]] := c0, c1, c2, c3, c4;
    RowWritten(w, a[..], q, r, y);
  }

  method KhiInPlace0(a: array<Lane>, q: seq<nat>, ghost r: State)
    requires a.Length == 25 && Naming(q) && RowsDone(a[..], q, r, 0)
    modifies a
    ensures RowsDone(a[..], q, r, 1)
  {
    hide Not, ChiLane, Chi, RowsDone;
    ChiRow(r, 0);
    RowRead(a[..], q, r, 0);
    var c0, c1, c2, c3, c4 := KhiRow0(a[q[0]], a[q[5]], a[q[10]], a[q[15]], a[q[20]], r[0], r[5], r[10], r[15], r[20]);
    PutRow(a, q, 0, c0, c1, c2, c3, c4, r);
  }

  method KhiInPlace1(a: array<Lane>, q: seq<nat>, ghost r: State)
    requires a.Length == 25 && Naming(q) && RowsDone(a[..], q, r, 1)
    modifies a
    ensures RowsDone(a[..], q, r, 2)
  {
    hide Not, ChiLane, Chi, RowsDone;
    ChiRow(r, 1);
    RowRead(a[..], q, r, 1);
    var c0, c1, c2, c3, c4 := KhiRow1(a[q[1]], a[q[6]], a[q[11]], a[q[16]], a[q[21]], r[1], r[6], r[11], r[16], r[21]);
    PutRow(a, q, 1, c0, c1, c2, c3, c4, r);
  }

  method KhiInPlace2(a: array<Lane>, q: seq<nat>, ghost r: State)
    requires a.Length == 25 && Naming(q) && RowsDone(a[..], q, r, 2)
    modifies a
    ensures RowsDone(a[..], q, r, 3)
  {
    hide Not, ChiLane, Chi, RowsDone;
    ChiRow(r, 2);
    RowRead(a[..], q, r, 2);
    var c0, c1, c2, c3, c4 := KhiRow2(a[q[2]], a[q[7]], a[q[12]], a[q[17]], a[q[22]], r[2], r[7], r[12], r[17], r[22]);
    PutRow(a, q, 2, c0, c1, c2, c3, c4, r);
  }

  method KhiInPlace3(a: array<Lane>, q: seq<nat>, ghost r: State)
    requires a.Length == 25 && Naming(q) && RowsDone(a[..], q, r, 3)
    modifies a
    ensures RowsDone(a[..], q, r, 4)
  {
    hide Not, ChiLane, Chi, RowsDone;
    ChiRow(r, 3);
    RowRead(a[..], q, r, 3);
    var c0, c1, c2, c3, c4 := KhiRow3(a[q[3]], a[q[8]], a[q[13]], a[q[18]], a[q[23]], r[3], r[8], r[13], r[18], r[23]);
    PutRow(a, q, 3, c0, c1, c2, c3, c4, r);
  }

  method KhiInPlace4(a: array<Lane>, q: seq<nat>, ghost r: State)
    requires a.Length == 25 && Naming(q) && RowsDone(a[..], q, r, 4)
    modifies a
    ensures RowsDone(a[..], q, r, 5)
  {
    hide Not, ChiLane, Chi, RowsDone;
    ChiRow(r, 4);
    RowRead(a[..], q, r, 4);
    var c0, c1, c2, c3, c4 := KhiRow4(a[q[4]], a[q[9]], a[q[14]], a[q[19]], a[q[24]], r[4], r[9], r[14], r[19], r[24]);
    PutRow(a, q, 4, c0, c1, c2, c3, c4, r);
  }

  lemma FlipBack(v: Lane, on: bool)
    ensures Flip(Flip(v, on), on) == v
  {
    hide Not;
    NotNot(v);
  }

  lemma RowsAtStart(w: State, q: seq<nat>)
    requires Naming(q)
    ensures RowsDone(w, q, Real(View(w, q), Moved), 0)
  {
    hide Flip, Moved;
    forall k | 0 <= k < 25 ensures w[q[k]] == Flip(Real(View(w, q), Moved)[k], Moved(k)) {
      FlipBack(w[q[k]], Moved(k));
    }
  }

  lemma RowsAtEnd(w: State, q: seq<nat>, r: State)
    requires Naming(q) && RowsDone(w, q, r, 5)
    ensures Real(View(w, q), Kept) == Chi(r)
  {
    hide Flip, Kept, Chi;
    forall k | 0 <= k < 25 ensures Real(View(w, q), Kept)[k] == Chi(r)[k] {
      FlipBack(Chi(r)[k], Kept(k));
    }
  }

  /** "KHI": chi of the lanes, their mask changing from the one pi leaves to the one kept between rounds. */
  method KhiInPlace(a: array<Lane>, q: seq<nat>)
    requires a.Length == 25 && Naming(q)
    modifies a
    ensures Real(View(a[..], q), Kept) == Chi(Real(View(old(a[..]), q), Moved))
  {
    hide RowsDone, Real;
    ghost var r := Real(View(a[..], q), Moved);
    RowsAtStart(a[..], q);
    KhiInPlace0(a, q, r);
    KhiInPlace1(a, q, r);
    KhiInPlace2(a, q, r);
    KhiInPlace3(a, q, r);
    KhiInPlace4(a, q, r);
    RowsAtEnd(a[..], q, r);
  }

  /** What the array stands for under a naming, between rounds. */
  function Meaning(w: State, p: seq<nat>): State
    requires Naming(p)
  {
    Real(View(w, p), Kept)
  }

  /** A naming follows another by pi; lane a00 keeps its place. */
  predicate Follows(p: seq<nat>, q: seq<nat>) {
    Naming(p) && Naming(q) && q[0] == 0 && q == Next(p)
  }

  lemma ThetaRhoPi(s: State)
    ensures Pi(Rho(Theta(Real(s, Kept)))) == Real(Pi(Rho(Theta(s))), Moved)
  {
    hide Theta, Rho, Pi, Real;
    ThetaSpreads(s);
    RhoSpreads(Theta(s));
    PiMoves(Rho(Theta(s)));
  }

  lemma RealAt(s: State, complemented: nat -> bool, k: nat)
    requires k < 25
    ensures Real(s, complemented)[k] == Flip(s[k], complemented(k))
  {
  }

  /** "IOTA": the constant goes to lane a00, which is never complemented between rounds. */
  method IotaInPlace(a: array<Lane>, q: seq<nat>, rc: Lane)
    requires a.Length == 25 && Naming(q) && q[0] == 0
    modifies a
    ensures Meaning(a[..], q) == Iota(Meaning(old(a[..]), q), rc)
  {
    hide Xor, Not;
    ghost var before := a[..];
    a[0] := Xor(a[0], rc);
    assert forall k :: 1 <= k < 25 ==> q[k] != q[0];
    assert View(a[..], q)[0] == Xor(View(before, q)[0], rc);
    assert forall k :: 1 <= k < 25 ==> View(a[..], q)[k] == View(before, q)[k];
    assert !Kept(0);
    RealAt(View(a[..], q), Kept, 0);
    RealAt(View(before, q), Kept, 0);
  }

  /** "KF_ELT": one round, from one naming to the next. */
  method KfElt(a: array<Lane>, p: seq<nat>, q: seq<nat>, rc: Lane)
    requires a.Length == 25 && Follows(p, q)
    modifies a
    ensures Meaning(a[..], q) == Round(Meaning(old(a[..]), p), rc)
  {
    hide View, Real, Next, Theta, Rho, Pi, Chi, Iota;
    ThetaRhoPi(View(a[..], p));
    ThetaInPlace(a, p);
    RhoInPlace(a, p);
    RenamedByPi(a[..], p, q);
    KhiInPlace(a, q);
    IotaInPlace(a, q, rc);
  }

  // ---------------------------------------------------------------------------------
  // The permutation

  // The naming lists: lane (x, y), in the order of 5x + y, is kept in this place of the array.

  function P0(): (p: seq<nat>)
    ensures |p| == 25
  {
    [0, 5, 10, 15, 20, 1, 6, 11, 16, 21, 2, 7, 12, 17, 22, 3, 8, 13, 18, 23, 4, 9, 14, 19, 24]
  }

  function P1(): (p: seq<nat>)
    ensures |p| == 25
  {
    [0, 3, 1, 4, 2, 6, 9, 7, 5, 8, 12, 10, 13, 11, 14, 18, 16, 19, 17, 15, 24, 22, 20, 23, 21]
  }

  function P2(): (p: seq<nat>)
    ensures |p| == 25
  {
    [0, 18, 6, 24, 12, 9, 22, 10, 3, 16, 13, 1, 19, 7, 20, 17, 5, 23, 11, 4, 21, 14, 2, 15, 8]
  }

  function P3(): (p: seq<nat>)
    ensures |p| == 25
  {
    [0, 17, 9, 21, 13, 22, 14, 1, 18, 5, 19, 6, 23, 10, 2, 11, 3, 15, 7, 24, 8, 20, 12, 4, 16]
  }

  function P4(): (p: seq<nat>)
    ensures |p| == 25
  {
    [0, 11, 22, 8, 19, 14, 20, 6, 17, 3, 23, 9, 15, 1, 12, 7, 18, 4, 10, 21, 16, 2, 13, 24, 5]
  }

  function P5(): (p: seq<nat>)
    ensures |p| == 25
  {
    [0, 7, 14, 16, 23, 20, 2, 9, 11, 18, 15, 22, 4, 6, 13, 10, 17, 24, 1, 8, 5, 12, 19, 21, 3]
  }

  function P6(): (p: seq<nat>)
    ensures |p| == 25
  {
    [0, 10, 20, 5, 15, 2, 12, 22, 7, 17, 4, 14, 24, 9, 19, 1, 11, 21, 6, 16, 3, 13, 23, 8, 18]
  }

  function P7(): (p: seq<nat>)
    ensures |p| == 25
  {
    [0, 1, 2, 3, 4, 12, 13, 14, 10, 11, 24, 20, 21, 22, 23, 6, 7, 8, 9, 5, 18, 19, 15, 16, 17]
  }

  function P8(): (p: seq<nat>)
    ensures |p| == 25
  {
    [0, 6, 12, 18, 24, 13, 19, 20, 1, 7, 21, 2, 8, 14, 15, 9, 10, 16, 22, 3, 17, 23, 4, 5, 11]
  }

  lemma WordOfInjective(j: nat, k: nat)
    requires j < 25 && k < 25 && WordOf(j) == WordOf(k)
    ensures j == k
  {
  }

  lemma FirstNamingIsOrder(k: nat)
    requires k < 25
    ensures P0()[k] == WordOf(k)
  {
  }

  lemma FirstNaming()
    ensures Naming(P0()) && P0()[0] == 0
  {
    FirstNamingIsOrder(0);
    hide P0, WordOf;
    forall k | 0 <= k < 25 ensures P0()[k] < 25 {
      FirstNamingIsOrder(k);
    }
    forall j, k | 0 <= j < k < 25 ensures P0()[j] != P0()[k] {
      FirstNamingIsOrder(j);
      FirstNamingIsOrder(k);
      if WordOf(j) == WordOf(k) {
        WordOfInjective(j, k);
      }
    }
  }

  lemma PiFromInjective(j: nat, k: nat)
    requires j < 25 && k < 25 && PiFrom(j) == PiFrom(k)
    ensures j == k
  {
    hide PiFrom;
    PiNumber(j / 5, j % 5);
    PiNumber(k / 5, k % 5);
    SameDigits((j / 5 + 3 * (j % 5)) % 5, j / 5, (k / 5 + 3 * (k % 5)) % 5, k / 5);
    Mod5Step(j / 5, j % 5, k % 5);
  }

  lemma SameDigits(a: nat, x: nat, b: nat, y: nat)
    requires a < 5 && x < 5 && b < 5 && y < 5 && 5 * a + x == 5 * b + y
    ensures a == b && x == y
  {
  }

  lemma Mod5Step(x: nat, y: nat, z: nat)
    requires x < 5 && y < 5 && z < 5 && (x + 3 * y) % 5 == (x + 3 * z) % 5
    ensures y == z
  {
  }

  lemma NextNaming(p: seq<nat>)
    requires Naming(p) && p[0] == 0
    ensures Naming(Next(p)) && Next(p)[0] == 0
  {
    hide Next, PiFrom;
    forall k | 0 <= k < 25 ensures Next(p)[k] == p[PiFrom(k)] {
      NextByPi(p, k);
    }
    forall j, k | 0 <= j < k < 25 ensures Next(p)[j] != Next(p)[k] {
      if PiFrom(j) == PiFrom(k) {
        PiFromInjective(j, k);
      }
    }
    PiNumber(0, 0);
  }

  lemma P1Next()
    ensures P1() == Next(P0())
  {
  }

  lemma P2Next()
    ensures P2() == Next(P1())
  {
  }

  lemma P3Next()
    ensures P3() == Next(P2())
  {
  }

  lemma P4Next()
    ensures P4() == Next(P3())
  {
  }

  lemma P5Next()
    ensures P5() == Next(P4())
  {
  }

  lemma P6Next()
    ensures P6() == Next(P5())
  {
  }

  lemma P7Next()
    ensures P7() == Next(P6())
  {
  }

  lemma P8Next()
    ensures P8() == Next(P7())
  {
  }

  lemma AllFollow()
    ensures Follows(P0(), P1()) && Follows(P1(), P2()) && Follows(P2(), P3()) && Follows(P3(), P4())
    ensures Follows(P4(), P5()) && Follows(P5(), P6()) && Follows(P6(), P7()) && Follows(P7(), P8())
  {
    hide Naming, Next, P0, P1, P2, P3, P4, P5, P6, P7, P8;
    FirstNaming();
    P1Next(); NextNaming(P0());
    P2Next(); NextNaming(P1());
    P3Next(); NextNaming(P2());
    P4Next(); NextNaming(P3());
    P5Next(); NextNaming(P4());
    P6Next(); NextNaming(P5());
    P7Next(); NextNaming(P6());
    P8Next(); NextNaming(P7());
  }

  /** Every place receives the lane the last naming keeps under the name the first gives it. */
  function Restored(w: State): State {
    [w[0], w[13], w[21], w[9], w[17], w[6], w[19], w[2], w[10], w[23],
     w[12], w[20], w[8], w[16], w[4], w[18], w[1], w[14], w[22], w[5],
     w[24], w[7], w[15], w[3], w[11]]
  }

  lemma RotationsRestore(w: State)
    ensures var v := Rotated(Rotated(Rotated(Rotated(w, 5, 6, 19), 10, 12, 8), 15, 18, 22), 20, 24, 11);
            Rotated(Rotated(Rotated(Rotated(v, 1, 13, 16), 21, 7, 2), 17, 14, 4), 3, 9, 23) == Restored(w)
  {
  }

  lemma RestoredAt(w: State, k: nat)
    requires k < 25
    ensures P0()[k] < 25 && P8()[k] < 25 && Restored(w)[P0()[k]] == w[P8()[k]]
  {
  }

  function Rotated(w: State, i: nat, j: nat, k: nat): State
    requires i < 25 && j < 25 && k < 25
  {
    w[i := w[j]][j := w[k]][k := w[i]]
  }

  method Rotate3(a: array<Lane>, i: nat, j: nat, k: nat)
    requires a.Length == 25 && i < 25 && j < 25 && k < 25 && i != j && j != k && i != k
    modifies a
    ensures a[..] == Rotated(old(a[..]), i, j, k)
  {
    var t := a[i];
    a[i] := a[j];
    a[j] := a[k];
    a[k] := t;
  }

  /** "P8_TO_P0": moves the lanes so that the first naming names them again. */
  method P8ToP0(a: array<Lane>)
    requires a.Length == 25
    modifies a
    ensures a[..] == Restored(old(a[..]))
  {
    hide Rotated, Restored;
    RotationsRestore(a[..]);
    Rotate3(a, 5, 6, 19);
    Rotate3(a, 10, 12, 8);
    Rotate3(a, 15, 18, 22);
    Rotate3(a, 20, 24, 11);
    Rotate3(a, 1, 13, 16);
    Rotate3(a, 21, 7, 2);
    Rotate3(a, 17, 14, 4);
    Rotate3(a, 3, 9, 23);
  }

  lemma MovedBack(w: State)
    requires Naming(P0()) && Naming(P8())
    ensures Meaning(Restored(w), P0()) == Meaning(w, P8())
  {
    hide P0, P8, Real, Restored;
    forall k | 0 <= k < 25 ensures View(Restored(w), P0())[k] == View(w, P8())[k] {
      RestoredAt(w, k);
    }
    assert View(Restored(w), P0()) == View(w, P8());
  }

  lemma {:induction false} OneMore(s: State, rc: seq<Lane>, i: nat)
    requires i < |rc|
    ensures Rounds(s, rc[..i + 1]) == Round(Rounds(s, rc[..i]), rc[i])
    ensures i == 0 ==> Rounds(s, rc[..i]) == s
  {
    hide Round;
    assert rc[..i + 1][..i] == rc[..i];
  }

  /** The state the context's words stand for between calls. */
  function Stands(w: State): State {
    FirstNaming();
    Meaning(w, P0())
  }

  method EightRounds(a: array<Lane>, rc: seq<Lane>)
    requires a.Length == 25 && |rc| == 8
    modifies a
    ensures Stands(a[..]) == Rounds(Stands(old(a[..])), rc)
  {
    hide Meaning, Round, Rounds, Naming, Next, Restored, P0, P1, P2, P3, P4, P5, P6, P7, P8;
    AllFollow();
    ghost var s := Meaning(a[..], P0());
    OneMore(s, rc, 0);
    KfElt(a, P0(), P1(), rc[0]);
    OneMore(s, rc, 1);
    KfElt(a, P1(), P2(), rc[1]);
    OneMore(s, rc, 2);
    KfElt(a, P2(), P3(), rc[2]);
    OneMore(s, rc, 3);
    KfElt(a, P3(), P4(), rc[3]);
    OneMore(s, rc, 4);
    KfElt(a, P4(), P5(), rc[4]);
    OneMore(s, rc, 5);
    KfElt(a, P5(), P6(), rc[5]);
    OneMore(s, rc, 6);
    KfElt(a, P6(), P7(), rc[6]);
    OneMore(s, rc, 7);
    KfElt(a, P7(), P8(), rc[7]);
    assert rc[..8] == rc;
    MovedBack(a[..]);
    P8ToP0(a);
  }

  /** "KECCAK_F_1600", eight rounds at a time. */
  method KeccakFInPlace(a: array<Lane>)
    requires a.Length == 25
    modifies a
    ensures Stands(a[..]) == KeccakF(Stands(old(a[..])))
  {
    hide Stands, Round, Rounds, RoundConstants;
    var rc := RoundConstants();
    ghost var s := Stands(a[..]);
    OneMore(s, rc, 0);
    var j := 0;
    while j < 24
      invariant 0 <= j <= 24 && j % 8 == 0
      invariant Stands(a[..]) == Rounds(s, rc[..j])
    {
      RoundsJoin(s, rc[..j], rc[j..j + 8]);
      assert rc[..j + 8] == rc[..j] + rc[j..j + 8];
      EightRounds(a, rc[j..j + 8]);
      j := j + 8;
    }
    assert rc[..24] == rc;
  }

  // ---------------------------------------------------------------------------------
  // The buffered sponge

  lemma FlipThenXor(v: Lane, on: bool, w: Lane)
    ensures Flip(Xor(v, w), on) == Xor(Flip(v, on), w)
  {
    hide Xor, Not;
    NotXor(v, w);
  }

  /** Words xored into the array are added to the state it stands for, complemented or not. */
  lemma AddedToState(before: State, after: State, block: seq<Octet>)
    requires forall i :: 0 <= i < 25 ==>
               after[i] == if 8 * i + 8 <= |block| then Xor(before[i], LaneLE(block[8 * i..8 * i + 8])) else before[i]
    ensures Stands(after) == AddBlock(Stands(before), block)
  {
    hide P0, Flip, Xor, LaneLE, WordOf, Kept;
    FirstNaming();
    forall k | 0 <= k < 25 ensures Stands(after)[k] == Added(Stands(before), block, k) {
      var i := P0()[k];
      FirstNamingIsOrder(k);
      if 8 * i + 8 <= |block| {
        FlipThenXor(before[i], Kept(k), LaneLE(block[8 * i..8 * i + 8]));
      }
    }
  }

  /** What "DEFCLOSE" appends to a message that leaves `held` octets in the buffer, `n` extra bits being given in
      `ub`. */
  function Padding(lim: nat, held: nat, ub: Octet, n: nat): (tmp: seq<Octet>)
    requires held < lim && n < 8
    ensures |tmp| > 0
  {
    var eb := ExtraOctet(ub, n);
    if held == lim - 1 then
      if n == 7 then [eb] + Zeros(lim - 1) + [0x80] else [eb | 0x80]
    else
      [eb] + Zeros(lim - held - 2) + [0x80]
  }

  lemma LastBit(eb: Octet)
    ensures BitsOf(false, 0x80) == Falses(7) + [true]
    ensures !BitsOf(false, eb)[7] ==> BitsOf(false, eb | 0x80) == BitsOf(false, eb)[..7] + [true]
  {
    FewFalses();
    assert eb & 128 == 0 ==> (eb | 0x80) & 128 != 0;
  }

  /** The zeros between the two ones of the padding. */
  function GapLength(lim: nat, held: nat, n: nat): nat
    requires held < lim && n < 8
  {
    if held == lim - 1 && n == 7 then 8 * lim - 1 else 8 * (lim - held) - n - 2
  }

  /**
   * The padding is the extra bits, a one, the fewest zeros that make whole blocks, a one
   * (the pad10*1 of section 5.1 of FIPS 202).
   */
  lemma PaddingBits(lim: nat, held: nat, ub: Octet, n: nat)
    requires held < lim && n < 8
    ensures Bits(false, Padding(lim, held, ub, n)) == TopBits(ub, n) + [true] + Falses(GapLength(lim, held, n)) + [true]
    ensures GapLength(lim, held, n) < 8 * lim
    ensures held + |Padding(lim, held, ub, n)| == lim || held + |Padding(lim, held, ub, n)| == 2 * lim
  {
    hide BitsOf, ExtraOctet, Bits, Falses;
    var eb := ExtraOctet(ub, n);
    ExtraBits(ub, n);
    if held == lim - 1 && n < 7 {
      LastBit(eb);
      SingleBits(false, eb | 0x80);
      FalsesSplit(6 - n, 1);
      assert Falses(7 - n)[..6 - n] == Falses(6 - n);
      assert BitsOf(false, eb)[..7] == TopBits(ub, n) + [true] + Falses(6 - n);
    } else {
      var z := if held == lim - 1 then lim - 1 else lim - held - 2;
      TailBits(eb, z);
      FalsesSplit(7 - n, 8 * z + 7);
      assert BitsOf(false, eb) + Falses(8 * z + 7) == TopBits(ub, n) + [true] + (Falses(7 - n) + Falses(8 * z + 7));
    }
  }

  lemma {:induction false} TailBits(eb: Octet, z: nat)
    ensures Bits(false, [eb] + Zeros(z) + [0x80]) == BitsOf(false, eb) + Falses(8 * z + 7) + [true]
  {
    hide BitsOf, Bits, Falses, Zeros;
    SingleBits(false, eb);
    SingleBits(false, 0x80);
    LastBit(eb);
    BitsJoin(false, [eb] + Zeros(z), [0x80]);
    BitsJoin(false, [eb], Zeros(z));
    BitsOfZeros(false, z);
    FalsesSplit(8 * z, 7);
    assert BitsOf(false, eb) + Falses(8 * z) + (Falses(7) + [true])
            == BitsOf(false, eb) + (Falses(8 * z) + Falses(7)) + [true];
  }

  lemma PlaceOfWord(i: nat)
    requires i < 25
    ensures WordOf(PlaceOf(i)) == i
    ensures Kept(PlaceOf(i)) == (i == 1 || i == 2 || i == 8 || i == 12 || i == 17 || i == 20)
  {
    hide Kept;
    RowColumn(i % 5, i / 5);
    KeptWords(i / 5, i % 5);
  }

  lemma KeptWords(y: nat, x: nat)
    requires x < 5 && y < 5
    ensures var i := 5 * y + x;
            Kept(5 * x + y) == (i == 1 || i == 2 || i == 8 || i == 12 || i == 17 || i == 20)
  {
  }

  /** Once the six words are complemented back, the array holds the state itself. */
  lemma Uncomplemented(before: State, after: State, i: nat)
    requires i < 25
    requires after[i] == Flip(before[i], i == 1 || i == 2 || i == 8 || i == 12 || i == 17 || i == 20)
    ensures after[i] == Stands(before)[PlaceOf(i)]
  {
    hide P0, Flip, Kept, PlaceOf, WordOf;
    FirstNaming();
    PlaceOfWord(i);
    FirstNamingIsOrder(PlaceOf(i));
  }

  /** The digest of a message of whole octets and `n` further bits. */
  ghost function Digest(lim: nat, m: seq<Octet>, ub: Octet, n: nat): seq<Octet>
    requires 72 <= lim <= 144 && n < 8
  {
    var s := Absorb<State>(lim, SpongeStep, Zero(), m + Padding(lim, |Rest(lim, m)|, ub, n));
    var size := (200 - lim) / 2;
    Squeezed(s, (size + 7) / 8)[..size]
  }

  /** The four rates and their digests: 224, 256, 384 and 512 bits of the state, from its first octet on. */
  lemma DigestSizes(m: seq<Octet>, ub: Octet, n: nat)
    requires n < 8
    ensures |Digest(144, m, ub, n)| == 28 && |Digest(136, m, ub, n)| == 32
    ensures |Digest(104, m, ub, n)| == 48 && |Digest(72, m, ub, n)| == 64
  {
    hide Absorb, SpongeStep, Padding, Squeezed;
  }

  lemma ZeroStands(w: State)
    requires forall i :: 0 <= i < 25 ==> w[i] == Flip(0, i == 1 || i == 2 || i == 8 || i == 12 || i == 17 || i == 20)
    ensures Stands(w) == Zero()
  {
    hide P0;
    FirstNaming();
    forall k | 0 <= k < 25 ensures Stands(w)[k] == 0 {
      FirstNamingIsOrder(k);
      FlipBack(0, Kept(k));
    }
  }

  class Context {
    const wide: array<Lane>
    const buf: array<Octet>
    var ptr: nat
    var lim: nat
    /** Everything absorbed since the last initialisation. */
    ghost var written: seq<Octet>

    ghost predicate Valid()
      reads this, wide, buf
    {
      && wide.Length == 25 && buf.Length == 144
      && 0 < lim <= 144 && lim % 8 == 0 && ptr < lim
      && Stands(wide[..]) == Absorb<State>(lim, SpongeStep, Zero(), written)
      && buf[..ptr] == Rest(lim, written)
    }

    /** "keccak_init" for a digest of `size` octets. */
    constructor (size: nat)
      requires size == 28 || size == 32 || size == 48 || size == 64
      ensures Valid() && written == [] && lim == 200 - 2 * size && fresh(wide) && fresh(buf)
    {
      wide := new Lane[25];
      buf := new Octet[144];
      lim := 200 - 2 * size;
      ptr := 0;
      written := [];
      new;
      Clear();
    }

    /** All lanes zero, six of them complemented. */
    method Clear()
      requires wide.Length == 25
      modifies wide
      ensures Stands(wide[..]) == Zero()
    {
      for i := 0 to 25
        invariant forall j :: 0 <= j < i ==> wide[j] == 0
      {
        wide[i] := 0;
      }
      wide[1] := Not(0);
      wide[2] := Not(0);
      wide[8] := Not(0);
      wide[12] := Not(0);
      wide[17] := Not(0);
      wide[20] := Not(0);
      ZeroStands(wide[..]);
    }

    /** "INPUT_BUF": a block is xored into the first words, complemented or not. */
    method InputBuf()
      requires wide.Length == 25 && buf.Length == 144 && lim <= 144 && lim % 8 == 0
      modifies wide
      ensures Stands(wide[..]) == AddBlock(Stands(old(wide[..])), buf[..lim])
    {
      hide Xor, LaneLE, Stands, AddBlock;
      ghost var before := wide[..];
      for i := 0 to lim / 8
        invariant forall j :: 0 <= j < i ==> wide[j] == Xor(before[j], LaneLE(buf[8 * j..8 * j + 8]))
        invariant forall j :: i <= j < 25 ==> wide[j] == before[j]
      {
        wide[i] := Xor(wide[i], LaneLE(buf[8 * i..8 * i + 8]));
      }
      assert forall i :: 0 <= 8 * i && 8 * i + 8 <= lim ==> buf[..lim][8 * i..8 * i + 8] == buf[8 * i..8 * i + 8];
      AddedToState(before, wide[..], buf[..lim]);
    }

    /** A full buffer is absorbed. */
    method AbsorbBuffer()
      requires wide.Length == 25 && buf.Length == 144 && lim <= 144 && lim % 8 == 0
      modifies wide
      ensures Stands(wide[..]) == SpongeStep(Stands(old(wide[..])), buf[..lim])
    {
      hide Stands, AddBlock, KeccakF;
      InputBuf();
      KeccakFInPlace(wide);
    }

    /** "keccak_core": the words stand for the sponge of everything written, however it was split. */
    method Core(data: seq<Octet>)
      requires Valid()
      modifies this, wide, buf
      ensures Valid() && written == old(written) + data && lim == old(lim)
    {
      hide Stands, SpongeStep, Zero, Absorb, Rest;
      if |data| < lim - ptr {
        Piece(data);
        return;
      }
      var at := 0;
      while at < |data|
        invariant 0 <= at <= |data|
        invariant Valid() && written == old(written) + data[..at] && lim == old(lim)
      {
        var clen := if lim - ptr > |data| - at then |data| - at else lim - ptr;
        Piece(data[at..at + clen]);
        at := at + clen;
        assert data[..at] == data[..at - clen] + data[at - clen..at];
      }
      assert data[..at] == data;
    }

    /** Octets that at most fill the buffer: it is absorbed when it is full. */
    method Piece(piece: seq<Octet>)
      requires Valid() && ptr + |piece| <= lim
      modifies this, wide, buf
      ensures Valid() && written == old(written) + piece && lim == old(lim)
    {
      hide Stands, SpongeStep, Zero, Absorb, Rest;
      Put(buf, ptr, piece);
      ptr := ptr + |piece|;
      if ptr == lim {
        AbsorbFill<State>(lim, SpongeStep, Zero(), written, piece);
        AbsorbBuffer();
        ptr := 0;
      } else {
        AbsorbShort<State>(lim, SpongeStep, Zero(), written, piece);
      }
      written := written + piece;
    }

    /** The six complemented words are complemented back. */
    method Uncomplement()
      requires wide.Length == 25
      modifies wide
      ensures forall i :: 0 <= i < 25 ==> wide[i] == Stands(old(wide[..]))[PlaceOf(i)]
    {
      hide Stands, PlaceOf, Not;
      ghost var before := wide[..];
      wide[1] := Not(wide[1]);
      wide[2] := Not(wide[2]);
      wide[8] := Not(wide[8]);
      wide[12] := Not(wide[12]);
      wide[17] := Not(wide[17]);
      wide[20] := Not(wide[20]);
      forall i | 0 <= i < 25 ensures wide[i] == Stands(before)[PlaceOf(i)] {
        Uncomplemented(before, wide[..], i);
      }
    }

    /** The first words of the array, as octets. */
    method Encode(size: nat, ghost s: State) returns (hash: seq<Octet>)
      requires wide.Length == 25 && size <= 64
      requires forall i :: 0 <= i < 25 ==> wide[i] == s[PlaceOf(i)]
      ensures hash == Squeezed(s, (size + 7) / 8)[..size]
    {
      hide PlaceOf, OctetsOfLane;
      hash := [];
      for i := 0 to (size + 7) / 8
        invariant hash == Squeezed(s, i)
      {
        hash := hash + OctetsOfLane(wide[i]);
      }
      hash := hash[..size];
    }

    /** "DEFCLOSE": the digest of everything written and the extra bits; the context starts afresh. */
    method Close(ub: Octet, n: nat) returns (hash: seq<Octet>)
      requires Valid() && n < 8 && (lim == 144 || lim == 136 || lim == 104 || lim == 72)
      modifies this, wide, buf
      ensures Valid() && written == [] && lim == old(lim)
      ensures hash == Digest(old(lim), old(written), ub, n)
    {
      hide Stands, SpongeStep, Zero, PlaceOf, Absorb, Rest, Padding, Squeezed;
      var tmp := Padding(lim, ptr, ub, n);
      Core(tmp);
      ghost var s := Stands(wide[..]);
      Uncomplement();
      hash := Encode((200 - lim) / 2, s);
      Clear();
      ptr := 0;
      written := [];
      RestOfNothing(lim);
    }
  }

  lemma RestOfNothing(lim: nat)
    requires lim > 0
    ensures Rest(lim, []) == [] && Absorb<State>(lim, SpongeStep, Zero(), []) == Zero()
  {
  }

  /** However a message is split into calls, its digest is the sponge's. */
  method Hash(size: nat, pieces: seq<seq<Octet>>, ub: Octet, n: nat) returns (hash: seq<Octet>)
    requires size == 28 || size == 32 || size == 48 || size == 64
    requires n < 8
    ensures hash == Digest(200 - 2 * size, Joined(pieces), ub, n)
  {
    hide Digest;
    var c := new Context(size);
    for i := 0 to |pieces|
      invariant c.Valid() && fresh(c) && fresh(c.wide) && fresh(c.buf) && c.lim == 200 - 2 * size
      invariant c.written == Joined(pieces[..i])
    {
      assert pieces[..i + 1][..i] == pieces[..i];
      c.Core(pieces[i]);
    }
    assert pieces[..|pieces|] == pieces;
    hash := c.Close(ub, n);
  }
}
