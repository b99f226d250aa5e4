/**
 * SHAvite-3-256's compression in its two forms: with the whole key schedule in an array,
 * and unrolled, with sixteen key words that are overwritten as the rounds go.
 */
module Shavite {
  import opened Words

  /** Four words, the operand of an AES round. */
  datatype Quad = Quad(w0: Word, w1: Word, w2: Word, w3: Word)

  /** "AES_ROUND_NOKEY"; how it mixes does not matter here. */
  type Aes = Quad -> Quad

  function Not(v: Word): Word {
    !v
  }

  lemma NotBits(v: Word)
    ensures Not(v) & v == 0 && Not(v) | v == 0xffff_ffff
  {
  }

  function Add(a: Quad, b: Quad): Quad {
    Quad(Xored(a.w0, b.w0), Xored(a.w1, b.w1), Xored(a.w2, b.w2), Xored(a.w3, b.w3))
  }

  /** The words turned by one. */
  function Turn(k: Quad): Quad {
    Quad(k.w1, k.w2, k.w3, k.w0)
  }

  // ---------------------------------------------------------------------------------
  // The schedule and the rounds

  /** The linear step of the schedule: each word takes the word three places before it. */
  function Linear(old4: Quad, last: Quad): Quad {
    var w0 := Xored(old4.w0, last.w1);
    Quad(w0, Xored(old4.w1, last.w2), Xored(old4.w2, last.w3), Xored(old4.w3, w0))
  }

  /** The counter enters the schedule at four places. */
  function Tweaked(q: nat, c0: Word, c1: Word, k: Quad): Quad {
    if q == 4 then k.(w0 := Xored(k.w0, c0), w1 := Xored(k.w1, Not(c1)))
    else if q == 14 then k.(w1 := Xored(k.w1, c1), w2 := Xored(k.w2, Not(c0)))
    else if q == 21 then k.(w2 := Xored(k.w2, c1), w3 := Xored(k.w3, Not(c0)))
    else if q == 31 then k.(w0 := Xored(k.w0, c0), w3 := Xored(k.w3, Not(c1)))
    else k
  }

  /** What the compression is given besides the chaining value. */
  datatype Input = Input(aes: Aes, m0: Quad, m1: Quad, m2: Quad, m3: Quad, c0: Word, c1: Word)

  /** Key words 4q to 4q + 3. */
  function Key(i: Input, q: nat): Quad {
    if q == 0 then i.m0
    else if q == 1 then i.m1
    else if q == 2 then i.m2
    else if q == 3 then i.m3
    else if q % 8 >= 4 then Tweaked(q, i.c0, i.c1, Add(i.aes(Turn(Key(i, q - 4))), Key(i, q - 1)))
    else Linear(Key(i, q - 4), Key(i, q - 1))
  }

  datatype Halves = Halves(left: Quad, right: Quad)

  /** Three AES rounds, each under its own key. */
  function F(aes: Aes, x: Quad, k0: Quad, k1: Quad, k2: Quad): Quad {
    aes(Add(aes(Add(aes(Add(x, k0)), k1)), k2))
  }

  /** Even rounds change the left half, odd rounds the right one. */
  function Round(i: Input, p: Halves, r: nat): Halves {
    if r % 2 == 0 then
      p.(left := Add(p.left, F(i.aes, p.right, Key(i, 3 * r), Key(i, 3 * r + 1), Key(i, 3 * r + 2))))
    else
      p.(right := Add(p.right, F(i.aes, p.left, Key(i, 3 * r), Key(i, 3 * r + 1), Key(i, 3 * r + 2))))
  }

  function Rounds(i: Input, p: Halves, n: nat): Halves {
    if n == 0 then p else Round(i, Rounds(i, p, n - 1), n - 1)
  }

  function Compress(i: Input, h: Halves): Halves {
    var p := Rounds(i, h, 12);
    Halves(Add(h.left, p.left), Add(h.right, p.right))
  }

  // ---------------------------------------------------------------------------------
  // The compact form

  function QuadAt(w: seq<Word>, q: nat): Quad
    requires 4 * q + 4 <= |w|
  {
    Quad(w[4 * q], w[4 * q + 1], w[4 * q + 2], w[4 * q + 3])
  }

  /** The first `n` quadruples of the array are the schedule's. */
  ghost predicate Filled(rk: seq<Word>, i: Input, n: nat) {
    |rk| == 144 && n <= 36 && forall q :: 0 <= q < n ==> QuadAt(rk, q) == Key(i, q)
  }

  lemma KeyNonlinear(i: Input, q: nat)
    requires q % 8 >= 4
    ensures Key(i, q) == Tweaked(q, i.c0, i.c1, Add(i.aes(Turn(Key(i, q - 4))), Key(i, q - 1)))
  {
  }

  lemma KeyLinear(i: Input, q: nat)
    requires q >= 8 && q % 8 < 4
    ensures Key(i, q) == Linear(Key(i, q - 4), Key(i, q - 1))
  {
  }

  function Pick(k: Quad, j: nat): Word {
    if j == 0 then k.w0 else if j == 1 then k.w1 else if j == 2 then k.w2 else k.w3
  }

  /** Word `u` of the schedule. */
  function KeyWord(i: Input, u: nat): Word {
    Pick(Key(i, u / 4), u % 4)
  }

  lemma Place(q: nat, j: nat)
    requires j < 4
    ensures (4 * q + j) / 4 == q && (4 * q + j) % 4 == j
  {
  }

  lemma {:induction false} WordOfKey(i: Input, q: nat, j: nat)
    requires j < 4
    ensures KeyWord(i, 4 * q + j) == Pick(Key(i, q), j)
  {
    hide Key, Pick;
    Place(q, j);
  }

  lemma {:induction false} WordsOfKey(i: Input, q: nat)
    ensures KeyWord(i, 4 * q) == Key(i, q).w0
    ensures KeyWord(i, 4 * q + 1) == Key(i, q).w1
    ensures KeyWord(i, 4 * q + 2) == Key(i, q).w2
    ensures KeyWord(i, 4 * q + 3) == Key(i, q).w3
  {
    hide Key, KeyWord;
    WordOfKey(i, q, 0);
    WordOfKey(i, q, 1);
    WordOfKey(i, q, 2);
    WordOfKey(i, q, 3);
  }

  /** The schedule word by word. From word 32 on, each of the first sixteen of every 32 words is the one sixteen before
      and the one three before, added. */
  lemma LinearWord(i: Input, q: nat)
    requires q >= 8 && q % 8 < 4
    ensures KeyWord(i, 4 * q) == Xored(KeyWord(i, 4 * q - 16), KeyWord(i, 4 * q - 3))
    ensures KeyWord(i, 4 * q + 1) == Xored(KeyWord(i, 4 * q - 15), KeyWord(i, 4 * q - 2))
    ensures KeyWord(i, 4 * q + 2) == Xored(KeyWord(i, 4 * q - 14), KeyWord(i, 4 * q - 1))
    ensures KeyWord(i, 4 * q + 3) == Xored(KeyWord(i, 4 * q - 13), KeyWord(i, 4 * q))
  {
    hide Key, KeyWord, Xored;
    KeyLinear(i, q);
    WordsOfKey(i, q);
    WordsOfKey(i, q - 1);
    WordsOfKey(i, q - 4);
  }

  /** What the counter adds to word `u`. */
  function CounterWord(i: Input, u: nat): Word {
    if u == 16 || u == 124 then i.c0
    else if u == 57 || u == 86 then i.c1
    else if u == 17 || u == 127 then Not(i.c1)
    else if u == 58 || u == 87 then Not(i.c0)
    else 0
  }

  /** The other words, by fours: an AES round of the words fifteen, fourteen, thirteen and sixteen before, the four
      words before, and the counter. */
  lemma NonlinearWords(i: Input, q: nat)
    requires q % 8 >= 4
    ensures
      var x := i.aes(Quad(KeyWord(i, 4 * q - 15), KeyWord(i, 4 * q - 14),
                          KeyWord(i, 4 * q - 13), KeyWord(i, 4 * q - 16)));
      && KeyWord(i, 4 * q) == Xored(Xored(x.w0, KeyWord(i, 4 * q - 4)), CounterWord(i, 4 * q))
      && KeyWord(i, 4 * q + 1) == Xored(Xored(x.w1, KeyWord(i, 4 * q - 3)), CounterWord(i, 4 * q + 1))
      && KeyWord(i, 4 * q + 2) == Xored(Xored(x.w2, KeyWord(i, 4 * q - 2)), CounterWord(i, 4 * q + 2))
      && KeyWord(i, 4 * q + 3) == Xored(Xored(x.w3, KeyWord(i, 4 * q - 1)), CounterWord(i, 4 * q + 3))
  {
    hide Key, KeyWord, Xored, Not, Tweaked, CounterWord;
    KeyNonlinear(i, q);
    WordsOfKey(i, q);
    WordsOfKey(i, q - 1);
    var k := Add(i.aes(Turn(Key(i, q - 4))), Key(i, q - 1));
    TweakWords(i, q, k);
    assert Turn(Key(i, q - 4)) == Quad(KeyWord(i, 4 * q - 15), KeyWord(i, 4 * q - 14),
                                       KeyWord(i, 4 * q - 13), KeyWord(i, 4 * q - 16)) by {
      WordsOfKey(i, q - 4);
    }
  }

  lemma NoCounter(i: Input, u: nat)
    requires u != 16 && u != 17 && u != 57 && u != 58 && u != 86 && u != 87 && u != 124 && u != 127
    ensures CounterWord(i, u) == 0
  {
  }

  lemma CounterWords(i: Input)
    ensures CounterWord(i, 16) == CounterWord(i, 124) == i.c0 && CounterWord(i, 57) == CounterWord(i, 86) == i.c1
    ensures CounterWord(i, 17) == CounterWord(i, 127) == Not(i.c1)
    ensures CounterWord(i, 58) == CounterWord(i, 87) == Not(i.c0)
  {
    hide Not;
  }

  lemma TweakWords(i: Input, q: nat, k: Quad)
    ensures Tweaked(q, i.c0, i.c1, k) ==
      Quad(Xored(k.w0, CounterWord(i, 4 * q)), Xored(k.w1, CounterWord(i, 4 * q + 1)),
           Xored(k.w2, CounterWord(i, 4 * q + 2)), Xored(k.w3, CounterWord(i, 4 * q + 3)))
  {
    hide Xored, Not, CounterWord;
    XoredZero(k.w0);
    XoredZero(k.w1);
    XoredZero(k.w2);
    XoredZero(k.w3);
    if q == 4 || q == 14 || q == 21 || q == 31 {
      CounterWords(i);
    }
    if q != 4 && q != 31 {
      NoCounter(i, 4 * q);
    }
    if q != 4 && q != 14 {
      NoCounter(i, 4 * q + 1);
    }
    if q != 14 && q != 21 {
      NoCounter(i, 4 * q + 2);
    }
    if q != 21 && q != 31 {
      NoCounter(i, 4 * q + 3);
    }
  }

  lemma XoredZero(v: Word)
    ensures Xored(v, 0) == v
  {
  }

  /** A quadruple made by an AES round; the counter is not in yet. */
  method MixWords(i: Input, rk: array<Word>, u: nat)
    requires rk.Length == 144 && 16 <= u <= 140
    modifies rk
    ensures rk[..u] == old(rk[..u])
    ensures u % 4 == 0 ==>
              QuadAt(rk[..], u / 4) == Add(i.aes(Turn(QuadAt(old(rk[..]), u / 4 - 4))), QuadAt(old(rk[..]), u / 4 - 1))
  {
    hide Xored;
    var x := i.aes(Quad(rk[u - 15], rk[u - 14], rk[u - 13], rk[u - 16]));
    rk[u] := Xored(x.w0, rk[u - 4]);
    rk[u + 1] := Xored(x.w1, rk[u - 3]);
    rk[u + 2] := Xored(x.w2, rk[u - 2]);
    rk[u + 3] := Xored(x.w3, rk[u - 1]);
  }

  /** The counter enters the first of two quadruples at 16 and 56. */
  method TweakFirst(i: Input, rk: array<Word>, u: nat)
    requires rk.Length == 144 && 16 <= u <= 140 && u % 8 == 0
    modifies rk
    ensures rk[..u] == old(rk[..u])
    ensures QuadAt(rk[..], u / 4) == Tweaked(u / 4, i.c0, i.c1, QuadAt(old(rk[..]), u / 4))
  {
    hide Xored, Not;
    if u == 16 {
      rk[16] := Xored(rk[16], i.c0);
      rk[17] := Xored(rk[17], Not(i.c1));
    } else if u == 56 {
      rk[57] := Xored(rk[57], i.c1);
      rk[58] := Xored(rk[58], Not(i.c0));
    }
  }

  /** And the second at 84 and 124. */
  method TweakSecond(i: Input, rk: array<Word>, u: nat)
    requires rk.Length == 144 && 16 <= u <= 140 && u % 8 == 4
    modifies rk
    ensures rk[..u] == old(rk[..u])
    ensures QuadAt(rk[..], u / 4) == Tweaked(u / 4, i.c0, i.c1, QuadAt(old(rk[..]), u / 4))
  {
    hide Xored, Not;
    if u == 84 {
      rk[86] := Xored(rk[86], i.c1);
      rk[87] := Xored(rk[87], Not(i.c0));
    } else if u == 124 {
      rk[124] := Xored(rk[124], i.c0);
      rk[127] := Xored(rk[127], Not(i.c1));
    }
  }

  lemma SameBelow(before: seq<Word>, after: seq<Word>, n: nat, k: nat)
    requires k < n <= |before| && n <= |after| && after[..n] == before[..n]
    ensures after[k] == before[k]
  {
    assert after[..n][k] == before[..n][k];
  }

  lemma {:induction false} OneMoreQuad(before: seq<Word>, after: seq<Word>, i: Input, q: nat)
    requires q < 36 && Filled(before, i, q) && |after| == 144 && after[..4 * q] == before[..4 * q]
    requires QuadAt(after, q) == Key(i, q)
    ensures Filled(after, i, q + 1)
  {
    hide Key;
    forall j | 0 <= j < q ensures QuadAt(after, j) == QuadAt(before, j) {
      SameBelow(before, after, 4 * q, 4 * j);
      SameBelow(before, after, 4 * q, 4 * j + 1);
      SameBelow(before, after, 4 * q, 4 * j + 2);
      SameBelow(before, after, 4 * q, 4 * j + 3);
    }
  }

  /** The first of two quadruples made by an AES round. */
  method MixFirst(i: Input, rk: array<Word>, u: nat)
    requires rk.Length == 144 && 16 <= u <= 140 && u % 8 == 0 && u / 4 % 8 >= 4 && Filled(rk[..], i, u / 4)
    modifies rk
    ensures Filled(rk[..], i, u / 4 + 1)
  {
    hide Key, Add, Turn, Tweaked, QuadAt;
    ghost var before := rk[..];
    KeyNonlinear(i, u / 4);
    MixWords(i, rk, u);
    TweakFirst(i, rk, u);
    OneMoreQuad(before, rk[..], i, u / 4);
  }

  method MixSecond(i: Input, rk: array<Word>, u: nat)
    requires rk.Length == 144 && 16 <= u <= 140 && u % 8 == 4 && u / 4 % 8 >= 4 && Filled(rk[..], i, u / 4)
    modifies rk
    ensures Filled(rk[..], i, u / 4 + 1)
  {
    hide Key, Add, Turn, Tweaked, QuadAt;
    ghost var before := rk[..];
    KeyNonlinear(i, u / 4);
    MixWords(i, rk, u);
    TweakSecond(i, rk, u);
    OneMoreQuad(before, rk[..], i, u / 4);
  }

  /** A quadruple made without AES. */
  method LinearWords(rk: array<Word>, u: nat)
    requires rk.Length == 144 && 16 <= u <= 140
    modifies rk
    ensures rk[..u] == old(rk[..u])
    ensures u % 4 == 0 ==>
              QuadAt(rk[..], u / 4) == Linear(QuadAt(old(rk[..]), u / 4 - 4), QuadAt(old(rk[..]), u / 4 - 1))
  {
    hide Xored;
    rk[u] := Xored(rk[u - 16], rk[u - 3]);
    rk[u + 1] := Xored(rk[u - 15], rk[u - 2]);
    rk[u + 2] := Xored(rk[u - 14], rk[u - 1]);
    rk[u + 3] := Xored(rk[u - 13], rk[u]);
  }

  method LinearQuad(i: Input, rk: array<Word>, u: nat)
    requires rk.Length == 144 && 32 <= u <= 140 && u % 4 == 0 && u / 4 % 8 < 4 && Filled(rk[..], i, u / 4)
    modifies rk
    ensures Filled(rk[..], i, u / 4 + 1)
  {
    hide Key, Linear, QuadAt;
    ghost var before := rk[..];
    KeyLinear(i, u / 4);
    LinearWords(rk, u);
    OneMoreQuad(before, rk[..], i, u / 4);
  }

  /** The whole key schedule, before any round. */
  method Schedule(i: Input) returns (rk: array<Word>)
    ensures fresh(rk) && Filled(rk[..], i, 36)
  {
    hide Key, QuadAt;
    rk := new Word[144];
    CopyMessage(i, rk);
    var u := 16;
    for r := 0 to 4
      invariant u == 16 + 32 * r && Filled(rk[..], i, u / 4)
    {
      for s := 0 to 2
        invariant u == 16 + 32 * r + 8 * s && Filled(rk[..], i, u / 4)
      {
        MixFirst(i, rk, u);
        u := u + 4;
        MixSecond(i, rk, u);
        u := u + 4;
      }
      for s := 0 to 4
        invariant u == 32 + 32 * r + 4 * s && Filled(rk[..], i, u / 4)
      {
        LinearQuad(i, rk, u);
        u := u + 4;
      }
    }
  }

  method CopyQuad(i: Input, rk: array<Word>, q: nat, k: Quad)
    requires rk.Length == 144 && q < 4 && Filled(rk[..], i, q) && k == Key(i, q)
    modifies rk
    ensures Filled(rk[..], i, q + 1)
  {
    hide Key;
    ghost var before := rk[..];
    rk[4 * q], rk[4 * q + 1], rk[4 * q + 2], rk[4 * q + 3] := k.w0, k.w1, k.w2, k.w3;
    OneMoreQuad(before, rk[..], i, q);
  }

  /** "memcpy(rk, msg, 64)". */
  method CopyMessage(i: Input, rk: array<Word>)
    requires rk.Length == 144
    modifies rk
    ensures Filled(rk[..], i, 4)
  {
    hide QuadAt;
    CopyQuad(i, rk, 0, i.m0);
    CopyQuad(i, rk, 1, i.m1);
    CopyQuad(i, rk, 2, i.m2);
    CopyQuad(i, rk, 3, i.m3);
  }

  method Load(i: Input, rk: array<Word>, u: nat) returns (k: Quad)
    requires Filled(rk[..], i, 36) && u % 4 == 0 && u + 4 <= 144
    ensures k == Key(i, u / 4)
  {
    hide Key;
    assert QuadAt(rk[..], u / 4) == Key(i, u / 4);
    k := Quad(rk[u], rk[u + 1], rk[u + 2], rk[u + 3]);
  }

  /** Three AES rounds under the twelve key words from `u` on. */
  method Mixed(i: Input, rk: array<Word>, x: Quad, u: nat) returns (y: Quad)
    requires Filled(rk[..], i, 36) && u % 12 == 0 && u + 12 <= 144
    ensures y == F(i.aes, x, Key(i, u / 4), Key(i, u / 4 + 1), Key(i, u / 4 + 2))
  {
    hide Key, Add, Filled;
    var k := Load(i, rk, u);
    y := i.aes(Add(x, k));
    k := Load(i, rk, u + 4);
    y := i.aes(Add(y, k));
    k := Load(i, rk, u + 8);
    y := i.aes(Add(y, k));
  }

  /** "c256" with "SPH_SMALL_FOOTPRINT_SHAVITE". */
  method Compact(i: Input, h: Halves) returns (h': Halves)
    ensures h' == Compress(i, h)
  {
    hide Key, F, Add, QuadAt, Filled;
    var rk := Schedule(i);
    var p := h;
    var u := 0;
    for r := 0 to 6
      invariant u == 24 * r && p == Rounds(i, h, 2 * r)
      invariant fresh(rk) && Filled(rk[..], i, 36)
    {
      assert Rounds(i, h, 2 * r + 2) == Round(i, Round(i, Rounds(i, h, 2 * r), 2 * r), 2 * r + 1);
      var x := Mixed(i, rk, p.right, u);
      p := p.(left := Add(p.left, x));
      x := Mixed(i, rk, p.left, u + 12);
      p := p.(right := Add(p.right, x));
      u := u + 24;
    }
    h' := Halves(Add(h.left, p.left), Add(h.right, p.right));
  }

  // ---------------------------------------------------------------------------------
  // The unrolled form

  lemma XoredAssociates(u: Word, v: Word, w: Word)
    ensures Xored(Xored(u, v), w) == Xored(u, Xored(v, w))
  {
  }

  /** "KEY_EXPAND_ELT": the AES round of the turned words, and the words turned back into place. */
  method KeyExpandElt(i: Input, k: Quad) returns (r: Quad)
    ensures r == i.aes(Turn(k))
  {
    var k0, k1, k2, k3 := k.w0, k.w1, k.w2, k.w3;
    var x := i.aes(Quad(k1, k2, k3, k0));
    k1, k2, k3, k0 := x.w0, x.w1, x.w2, x.w3;
    var kt := k0;
    k0 := k1;
    k1 := k2;
    k2 := k3;
    k3 := kt;
    r := Quad(k0, k1, k2, k3);
  }

  /** Key words replaced by an AES round, where the counter does not enter. */
  method Expand(i: Input, k: Quad, last: Quad, ghost q: nat) returns (r: Quad)
    requires q % 8 >= 4 && q != 4 && q != 14 && q != 21 && q != 31
    requires k == Key(i, q - 4) && last == Key(i, q - 1)
    ensures r == Key(i, q)
  {
    hide Key, Xored;
    KeyNonlinear(i, q);
    r := KeyExpandElt(i, k);
    r := Add(r, last);
  }

  method Expand4(i: Input, k: Quad, last: Quad) returns (r: Quad)
    requires k == Key(i, 0) && last == Key(i, 3)
    ensures r == Key(i, 4)
  {
    hide Key, Xored, Not;
    KeyNonlinear(i, 4);
    var e := KeyExpandElt(i, k);
    XoredAssociates(e.w0, last.w0, i.c0);
    XoredAssociates(e.w1, last.w1, Not(i.c1));
    r := Quad(Xored(e.w0, Xored(last.w0, i.c0)), Xored(e.w1, Xored(last.w1, Not(i.c1))),
              Xored(e.w2, last.w2), Xored(e.w3, last.w3));
  }

  method Expand14(i: Input, k: Quad, last: Quad) returns (r: Quad)
    requires k == Key(i, 10) && last == Key(i, 13)
    ensures r == Key(i, 14)
  {
    hide Key, Xored, Not;
    KeyNonlinear(i, 14);
    var e := KeyExpandElt(i, k);
    XoredAssociates(e.w1, last.w1, i.c1);
    XoredAssociates(e.w2, last.w2, Not(i.c0));
    r := Quad(Xored(e.w0, last.w0), Xored(e.w1, Xored(last.w1, i.c1)),
              Xored(e.w2, Xored(last.w2, Not(i.c0))), Xored(e.w3, last.w3));
  }

  method Expand21(i: Input, k: Quad, last: Quad) returns (r: Quad)
    requires k == Key(i, 17) && last == Key(i, 20)
    ensures r == Key(i, 21)
  {
    hide Key, Xored, Not;
    KeyNonlinear(i, 21);
    var e := KeyExpandElt(i, k);
    XoredAssociates(e.w2, last.w2, i.c1);
    XoredAssociates(e.w3, last.w3, Not(i.c0));
    r := Quad(Xored(e.w0, last.w0), Xored(e.w1, last.w1),
              Xored(e.w2, Xored(last.w2, i.c1)), Xored(e.w3, Xored(last.w3, Not(i.c0))));
  }

  method Expand31(i: Input, k: Quad, last: Quad) returns (r: Quad)
    requires k == Key(i, 27) && last == Key(i, 30)
    ensures r == Key(i, 31)
  {
    hide Key, Xored, Not;
    KeyNonlinear(i, 31);
    var e := KeyExpandElt(i, k);
    XoredAssociates(e.w0, last.w0, i.c0);
    XoredAssociates(e.w3, last.w3, Not(i.c1));
    r := Quad(Xored(e.w0, Xored(last.w0, i.c0)), Xored(e.w1, last.w1),
              Xored(e.w2, last.w2), Xored(e.w3, Xored(last.w3, Not(i.c1))));
  }

  /** Key words replaced without AES, one after the other. */
  method Slide(i: Input, k: Quad, last: Quad, ghost q: nat) returns (r: Quad)
    requires q >= 8 && q % 8 < 4 && k == Key(i, q - 4) && last == Key(i, q - 1)
    ensures r == Key(i, q)
  {
    hide Key, Xored;
    KeyLinear(i, q);
    r := k;
    r := r.(w0 := Xored(r.w0, last.w1));
    r := r.(w1 := Xored(r.w1, last.w2));
    r := r.(w2 := Xored(r.w2, last.w3));
    r := r.(w3 := Xored(r.w3, r.w0));
  }

  lemma NoRounds(i: Input, h: Halves)
    ensures Rounds(i, h, 0) == h
  {
  }

  lemma NextRound(i: Input, h: Halves, r: nat)
    ensures Rounds(i, h, r + 1) == Round(i, Rounds(i, h, r), r)
  {
  }

  /** The sixteen key words. */
  datatype Keys = Keys(k0: Quad, k1: Quad, k2: Quad, k3: Quad)

  /** The latest quadruple before `q` that has its place among the sixteen key words. */
  function Latest(q: nat, place: nat): nat
    requires q >= 4 && place < 4
  {
    q - 1 - (q - 1 - place) % 4
  }

  /** The key words hold the schedule's four quadruples before `q`. */
  ghost predicate Hold(i: Input, k: Keys, q: nat)
    requires q >= 4
  {
    && k.k0 == Key(i, Latest(q, 0)) && k.k1 == Key(i, Latest(q, 1))
    && k.k2 == Key(i, Latest(q, 2)) && k.k3 == Key(i, Latest(q, 3))
  }

  /** Rounds 0 and 1. */
  method Rounds0(i: Input, h: Halves) returns (p: Halves, k': Keys)
    ensures p == Rounds(i, h, 2) && Hold(i, k', 6)
  {
    hide Key, Add, Rounds, Tweaked, Linear;
    NoRounds(i, h);
    MessageKeys(i);
    var k0, k1, k2, k3, x;
    p := h;
    // round 0
    NextRound(i, h, 0);
    k0 := i.m0;
    x := i.aes(Add(p.right, k0));
    k1 := i.m1;
    x := i.aes(Add(x, k1));
    k2 := i.m2;
    x := i.aes(Add(x, k2));
    p := p.(left := Add(p.left, x));
    // round 1
    NextRound(i, h, 1);
    k3 := i.m3;
    x := i.aes(Add(p.left, k3));
    k0 := Expand4(i, k0, k3);
    x := i.aes(Add(x, k0));
    k1 := Expand(i, k1, k0, 5);
    x := i.aes(Add(x, k1));
    p := p.(right := Add(p.right, x));
    k' := Keys(k0, k1, k2, k3);
  }

  /** Rounds 2 and 3. */
  method Rounds2(i: Input, p0: Halves, k: Keys, ghost h: Halves) returns (p: Halves, k': Keys)
    requires p0 == Rounds(i, h, 2) && Hold(i, k, 6)
    ensures p == Rounds(i, h, 4) && Hold(i, k', 12)
  {
    hide Key, Add, Rounds, Tweaked, Linear;
    var Keys(k0, k1, k2, k3) := k;
    var x;
    p := p0;
    // round 2
    NextRound(i, h, 2);
    k2 := Expand(i, k2, k1, 6);
    x := i.aes(Add(p.right, k2));
    k3 := Expand(i, k3, k2, 7);
    x := i.aes(Add(x, k3));
    k0 := Slide(i, k0, k3, 8);
    x := i.aes(Add(x, k0));
    p := p.(left := Add(p.left, x));
    // round 3
    NextRound(i, h, 3);
    k1 := Slide(i, k1, k0, 9);
    x := i.aes(Add(p.left, k1));
    k2 := Slide(i, k2, k1, 10);
    x := i.aes(Add(x, k2));
    k3 := Slide(i, k3, k2, 11);
    x := i.aes(Add(x, k3));
    p := p.(right := Add(p.right, x));
    k' := Keys(k0, k1, k2, k3);
  }

  /** Rounds 4 and 5. */
  method Rounds4(i: Input, p0: Halves, k: Keys, ghost h: Halves) returns (p: Halves, k': Keys)
    requires p0 == Rounds(i, h, 4) && Hold(i, k, 12)
    ensures p == Rounds(i, h, 6) && Hold(i, k', 18)
  {
    hide Key, Add, Rounds, Tweaked, Linear;
    var Keys(k0, k1, k2, k3) := k;
    var x;
    p := p0;
    // round 4
    NextRound(i, h, 4);
    k0 := Expand(i, k0, k3, 12);
    x := i.aes(Add(p.right, k0));
    k1 := Expand(i, k1, k0, 13);
    x := i.aes(Add(x, k1));
    k2 := Expand14(i, k2, k1);
    x := i.aes(Add(x, k2));
    p := p.(left := Add(p.left, x));
    // round 5
    NextRound(i, h, 5);
    k3 := Expand(i, k3, k2, 15);
    x := i.aes(Add(p.left, k3));
    k0 := Slide(i, k0, k3, 16);
    x := i.aes(Add(x, k0));
    k1 := Slide(i, k1, k0, 17);
    x := i.aes(Add(x, k1));
    p := p.(right := Add(p.right, x));
    k' := Keys(k0, k1, k2, k3);
  }

  /** Rounds 6 and 7. */
  method Rounds6(i: Input, p0: Halves, k: Keys, ghost h: Halves) returns (p: Halves, k': Keys)
    requires p0 == Rounds(i, h, 6) && Hold(i, k, 18)
    ensures p == Rounds(i, h, 8) && Hold(i, k', 24)
  {
    hide Key, Add, Rounds, Tweaked, Linear;
    var Keys(k0, k1, k2, k3) := k;
    var x;
    p := p0;
    // round 6
    NextRound(i, h, 6);
    k2 := Slide(i, k2, k1, 18);
    x := i.aes(Add(p.right, k2));
    k3 := Slide(i, k3, k2, 19);
    x := i.aes(Add(x, k3));
    k0 := Expand(i, k0, k3, 20);
    x := i.aes(Add(x, k0));
    p := p.(left := Add(p.left, x));
    // round 7
    NextRound(i, h, 7);
    k1 := Expand21(i, k1, k0);
    x := i.aes(Add(p.left, k1));
    k2 := Expand(i, k2, k1, 22);
    x := i.aes(Add(x, k2));
    k3 := Expand(i, k3, k2, 23);
    x := i.aes(Add(x, k3));
    p := p.(right := Add(p.right, x));
    k' := Keys(k0, k1, k2, k3);
  }

  /** Rounds 8 and 9. */
  method Rounds8(i: Input, p0: Halves, k: Keys, ghost h: Halves) returns (p: Halves, k': Keys)
    requires p0 == Rounds(i, h, 8) && Hold(i, k, 24)
    ensures p == Rounds(i, h, 10) && Hold(i, k', 30)
  {
    hide Key, Add, Rounds, Tweaked, Linear;
    var Keys(k0, k1, k2, k3) := k;
    var x;
    p := p0;
    // round 8
    NextRound(i, h, 8);
    k0 := Slide(i, k0, k3, 24);
    x := i.aes(Add(p.right, k0));
    k1 := Slide(i, k1, k0, 25);
    x := i.aes(Add(x, k1));
    k2 := Slide(i, k2, k1, 26);
    x := i.aes(Add(x, k2));
    p := p.(left := Add(p.left, x));
    // round 9
    NextRound(i, h, 9);
    k3 := Slide(i, k3, k2, 27);
    x := i.aes(Add(p.left, k3));
    k0 := Expand(i, k0, k3, 28);
    x := i.aes(Add(x, k0));
    k1 := Expand(i, k1, k0, 29);
    x := i.aes(Add(x, k1));
    p := p.(right := Add(p.right, x));
    k' := Keys(k0, k1, k2, k3);
  }

  /** Rounds 10 and 11. */
  method Rounds10(i: Input, p0: Halves, k: Keys, ghost h: Halves) returns (p: Halves)
    requires p0 == Rounds(i, h, 10) && Hold(i, k, 30)
    ensures p == Rounds(i, h, 12)
  {
    hide Key, Add, Rounds, Tweaked, Linear;
    var Keys(k0, k1, k2, k3) := k;
    var x;
    p := p0;
    // round 10
    NextRound(i, h, 10);
    k2 := Expand(i, k2, k1, 30);
    x := i.aes(Add(p.right, k2));
    k3 := Expand31(i, k3, k2);
    x := i.aes(Add(x, k3));
    k0 := Slide(i, k0, k3, 32);
    x := i.aes(Add(x, k0));
    p := p.(left := Add(p.left, x));
    // round 11
    NextRound(i, h, 11);
    k1 := Slide(i, k1, k0, 33);
    x := i.aes(Add(p.left, k1));
    k2 := Slide(i, k2, k1, 34);
    x := i.aes(Add(x, k2));
    k3 := Slide(i, k3, k2, 35);
    x := i.aes(Add(x, k3));
    p := p.(right := Add(p.right, x));
  }

  lemma MessageKeys(i: Input)
    ensures Key(i, 0) == i.m0 && Key(i, 1) == i.m1 && Key(i, 2) == i.m2 && Key(i, 3) == i.m3
  {
  }

  /** "c256" without "SPH_SMALL_FOOTPRINT_SHAVITE". */
  method Unrolled(i: Input, h: Halves) returns (h': Halves)
    ensures h' == Compress(i, h)
  {
    hide Rounds, Hold, Add;
    var p, k := Rounds0(i, h);
    p, k := Rounds2(i, p, k, h);
    p, k := Rounds4(i, p, k, h);
    p, k := Rounds6(i, p, k, h);
    p, k := Rounds8(i, p, k, h);
    p := Rounds10(i, p, k, h);
    h' := Halves(Add(h.left, p.left), Add(h.right, p.right));
  }
}
