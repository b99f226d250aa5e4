/** SHA-256's compression: the unrolled code against section 6.2.2 of FIPS 180-4. */
module Sha256 {
  import opened Blocks
  import opened Streaming
  import opened Words

  lemma AddCommutes(x: Word, y: Word)
    ensures Add(x, y) == Add(y, x)
  {
  }

  // ---------------------------------------------------------------------------------
  // The standard (sections 4.1.2, 4.2.2 and 6.2.2)

  function StdCh(x: Word, y: Word, z: Word): Word { (x & y) ^ (!x & z) }
  function StdMaj(x: Word, y: Word, z: Word): Word { (x & y) ^ (x & z) ^ (y & z) }
  function StdSum0(x: Word): Word { x.RotateRight(2) ^ x.RotateRight(13) ^ x.RotateRight(22) }
  function StdSum1(x: Word): Word { x.RotateRight(6) ^ x.RotateRight(11) ^ x.RotateRight(25) }
  function StdSigma0(x: Word): Word { x.RotateRight(7) ^ x.RotateRight(18) ^ (x >> 3) }
  function StdSigma1(x: Word): Word { x.RotateRight(17) ^ x.RotateRight(19) ^ (x >> 10) }

  function K0(): (k: seq<Word>)
    ensures |k| == 16
  {
    [
      0x428a2f98, 0x71374491, 0xb5c0fbcf, 0xe9b5dba5,
      0x3956c25b, 0x59f111f1, 0x923f82a4, 0xab1c5ed5,
      0xd807aa98, 0x12835b01, 0x243185be, 0x550c7dc3,
      0x72be5d74, 0x80deb1fe, 0x9bdc06a7, 0xc19bf174]
  }

  function K1(): (k: seq<Word>)
    ensures |k| == 16
  {
    [
      0xe49b69c1, 0xefbe4786, 0x0fc19dc6, 0x240ca1cc,
      0x2de92c6f, 0x4a7484aa, 0x5cb0a9dc, 0x76f988da,
      0x983e5152, 0xa831c66d, 0xb00327c8, 0xbf597fc7,
      0xc6e00bf3, 0xd5a79147, 0x06ca6351, 0x14292967]
  }

  function K2(): (k: seq<Word>)
    ensures |k| == 16
  {
    [
      0x27b70a85, 0x2e1b2138, 0x4d2c6dfc, 0x53380d13,
      0x650a7354, 0x766a0abb, 0x81c2c92e, 0x92722c85,
      0xa2bfe8a1, 0xa81a664b, 0xc24b8b70, 0xc76c51a3,
      0xd192e819, 0xd6990624, 0xf40e3585, 0x106aa070]
  }

  function K3(): (k: seq<Word>)
    ensures |k| == 16
  {
    [
      0x19a4c116, 0x1e376c08, 0x2748774c, 0x34b0bcb5,
      0x391c0cb3, 0x4ed8aa4a, 0x5b9cca4f, 0x682e6ff3,
      0x748f82ee, 0x78a5636f, 0x84c87814, 0x8cc70208,
      0x90befffa, 0xa4506ceb, 0xbef9a3f7, 0xc67178f2]
  }

  /** The constant of round `t`. */
  function K(t: nat): Word
    requires t < 64
  {
    (if t < 16 then K0() else if t < 32 then K1() else if t < 48 then K2() else K3())[t % 16]
  }

  datatype Regs = Regs(a: Word, b: Word, c: Word, d: Word, e: Word, f: Word, g: Word, h: Word)

  /** The message schedule. */
  function W(m: seq<Word>, t: nat): Word
    requires |m| == 16
  {
    if t < 16 then m[t]
    else Add(Add(Add(StdSigma1(W(m, t - 2)), W(m, t - 7)), StdSigma0(W(m, t - 15))), W(m, t - 16))
  }

  /** One step: all eight registers shift. */
  function Step(r: Regs, k: Word, w: Word): Regs {
    var t1 := Add(Add(Add(Add(r.h, StdSum1(r.e)), StdCh(r.e, r.f, r.g)), k), w);
    var t2 := Add(StdSum0(r.a), StdMaj(r.a, r.b, r.c));
    Regs(Add(t1, t2), r.a, r.b, r.c, Add(r.d, t1), r.e, r.f, r.g)
  }

  /** The registers after `t` steps. */
  function Steps(r: Regs, m: seq<Word>, t: nat): Regs
    requires |m| == 16 && t <= 64
  {
    if t == 0 then r else Step(Steps(r, m, t - 1), K(t - 1), W(m, t - 1))
  }

  function Compress(r: Regs, m: seq<Word>): Regs
    requires |m| == 16
  {
    var s := Steps(r, m, 64);
    Regs(Add(r.a, s.a), Add(r.b, s.b), Add(r.c, s.c), Add(r.d, s.d),
         Add(r.e, s.e), Add(r.f, s.f), Add(r.g, s.g), Add(r.h, s.h))
  }

  // ---------------------------------------------------------------------------------
  // The program's forms

  function Ch(x: Word, y: Word, z: Word): Word { z ^ (x & (y ^ z)) }
  function Maj(x: Word, y: Word, z: Word): Word { (x & y) | (z & (x | y)) }
  function Sum0(x: Word): Word { ((x >> 2) | (x << 30)) ^ ((x >> 13) | (x << 19)) ^ ((x >> 22) | (x << 10)) }
  function Sum1(x: Word): Word { ((x >> 6) | (x << 26)) ^ ((x >> 11) | (x << 21)) ^ ((x >> 25) | (x << 7)) }
  function Sigma0(x: Word): Word { ((x >> 7) | (x << 25)) ^ ((x >> 18) | (x << 14)) ^ (x >> 3) }
  function Sigma1(x: Word): Word { ((x >> 17) | (x << 15)) ^ ((x >> 19) | (x << 13)) ^ (x >> 10) }

  lemma ChBits(x: Word, y: Word, z: Word)
    ensures z ^ (x & (y ^ z)) == (x & y) ^ (!x & z)
  {
  }

  lemma MajBits(x: Word, y: Word, z: Word)
    ensures (x & y) | (z & (x | y)) == (x & y) ^ (x & z) ^ (y & z)
  {
  }

  lemma SameCh(x: Word, y: Word, z: Word)
    ensures Ch(x, y, z) == StdCh(x, y, z)
  {
    ChBits(x, y, z);
  }

  lemma SameMaj(x: Word, y: Word, z: Word)
    ensures Maj(x, y, z) == StdMaj(x, y, z)
  {
    MajBits(x, y, z);
  }

  lemma SameSums(x: Word)
    ensures Sum0(x) == StdSum0(x) && Sum1(x) == StdSum1(x)
  {
  }

  lemma SameSigmas(x: Word)
    ensures Sigma0(x) == StdSigma0(x) && Sigma1(x) == StdSigma1(x)
  {
  }

  /** Where a round stands: the registers the block started from, its words and the step. */
  ghost predicate AtStep(now: Regs, r: Regs, m: seq<Word>, t: nat)
    requires |m| == 16 && t <= 64
  {
    now == Steps(r, m, t)
  }

  /** One round: only two registers change, and the caller renames the others. */
  method Round(a: Word, b: Word, c: Word, d: Word, e: Word, f: Word, g: Word, h: Word, k: Word, w: Word,
               ghost r: Regs, ghost m: seq<Word>, ghost t: nat)
    returns (d': Word, h': Word)
    requires |m| == 16 && t < 64 && AtStep(Regs(a, b, c, d, e, f, g, h), r, m, t)
    requires k == K(t) && w == W(m, t)
    ensures AtStep(Regs(h', a, b, c, d', e, f, g), r, m, t + 1)
  {
    hide Add, K, W, StdCh, StdMaj, StdSum0, StdSum1, Ch, Maj, Sum0, Sum1;
    SameCh(e, f, g);
    SameMaj(a, b, c);
    SameSums(e);
    SameSums(a);
    var t1 := Add(Add(Add(Add(h, Sum1(e)), Ch(e, f, g)), k), w);
    var t2 := Add(Sum0(a), Maj(a, b, c));
    d' := Add(d, t1);
    h' := Add(t1, t2);
  }

  /** The word that replaces `w`: "w += sigma1(w2) + w7 + sigma0(w15)". */
  method Extend(w: Word, w2: Word, w7: Word, w15: Word, ghost m: seq<Word>, ghost t: nat) returns (r: Word)
    requires |m| == 16 && t >= 16
    requires w == W(m, t - 16) && w2 == W(m, t - 2) && w7 == W(m, t - 7) && w15 == W(m, t - 15)
    ensures r == W(m, t)
  {
    hide Add, StdSigma0, StdSigma1, Sigma0, Sigma1;
    SameSigmas(w2);
    SameSigmas(w15);
    AddCommutes(w, Add(Add(Sigma1(w2), w7), Sigma0(w15)));
    r := Add(w, Add(Add(Sigma1(w2), w7), Sigma0(w15)));
  }

  /** The `n` constants from round `t` on. */
  ghost predicate ConstantsFrom(k: seq<Word>, t: nat, n: nat)
    requires t + n <= 64
  {
    |k| == n && forall i :: 0 <= i < n ==> k[i] == K(t + i)
  }

  /** A later round, which first replaces its schedule word. */
  method LateRound(a: Word, b: Word, c: Word, d: Word, e: Word, f: Word, g: Word, h: Word, k: Word,
                   w: Word, w2: Word, w7: Word, w15: Word, ghost r: Regs, ghost m: seq<Word>, ghost t: nat)
    returns (d': Word, h': Word, w': Word)
    requires |m| == 16 && 16 <= t < 64 && AtStep(Regs(a, b, c, d, e, f, g, h), r, m, t) && k == K(t)
    requires w == W(m, t - 16) && w2 == W(m, t - 2) && w7 == W(m, t - 7) && w15 == W(m, t - 15)
    ensures AtStep(Regs(h', a, b, c, d', e, f, g), r, m, t + 1) && w' == W(m, t)
  {
    hide AtStep, K, W;
    w' := Extend(w, w2, w7, w15, m, t);
    d', h' := Round(a, b, c, d, e, f, g, h, k, w', r, m, t);
  }

  /** The sixteen schedule words the code keeps. */
  datatype Window = Window(w0: Word, w1: Word, w2: Word, w3: Word, w4: Word, w5: Word, w6: Word, w7: Word,
                           w8: Word, w9: Word, w10: Word, w11: Word, w12: Word, w13: Word, w14: Word, w15: Word)

  /** Schedule words `t` to `t + 15`. */
  ghost function WindowAt(m: seq<Word>, t: nat): Window
    requires |m| == 16
  {
    Window(W(m, t), W(m, t + 1), W(m, t + 2), W(m, t + 3), W(m, t + 4), W(m, t + 5), W(m, t + 6), W(m, t + 7),
           W(m, t + 8), W(m, t + 9), W(m, t + 10), W(m, t + 11), W(m, t + 12), W(m, t + 13), W(m, t + 14), W(m, t + 15))
  }

  lemma StartsAtZero(r: Regs, m: seq<Word>)
    requires |m| == 16
    ensures AtStep(r, r, m, 0)
  {
  }

  /** Four of rounds 0 to 15. The registers come back under the names the next four use. */
  method FirstFour(r: Regs, w0: Word, w1: Word, w2: Word, w3: Word, k: seq<Word>, ghost r0: Regs, ghost m: seq<Word>,
                   ghost t: nat)
    returns (r': Regs)
    requires |m| == 16 && t + 4 <= 16 && ConstantsFrom(k, t, 4) && AtStep(r, r0, m, t)
    requires w0 == m[t] && w1 == m[t + 1] && w2 == m[t + 2] && w3 == m[t + 3]
    ensures AtStep(r', r0, m, t + 4)
  {
    hide AtStep, K;
    var Regs(a, b, c, d, e, f, g, h) := r;
    d, h := Round(a, b, c, d, e, f, g, h, k[0], w0, r0, m, t);
    c, g := Round(h, a, b, c, d, e, f, g, k[1], w1, r0, m, t + 1);
    b, f := Round(g, h, a, b, c, d, e, f, k[2], w2, r0, m, t + 2);
    a, e := Round(f, g, h, a, b, c, d, e, k[3], w3, r0, m, t + 3);
    r' := Regs(e, f, g, h, a, b, c, d);
  }

  /** Rounds 0 to 15. */
  method FirstSixteen(r: Regs, m: seq<Word>, k: seq<Word>) returns (r': Regs)
    requires |m| == 16 && ConstantsFrom(k, 0, 16)
    ensures AtStep(r', r, m, 16)
  {
    hide AtStep, K;
    StartsAtZero(r, m);
    r' := FirstFour(r, m[0], m[1], m[2], m[3], k[..4], r, m, 0);
    r' := FirstFour(r', m[4], m[5], m[6], m[7], k[4..8], r, m, 4);
    r' := FirstFour(r', m[8], m[9], m[10], m[11], k[8..12], r, m, 8);
    r' := FirstFour(r', m[12], m[13], m[14], m[15], k[12..], r, m, 12);
  }

  /**
   * Four later rounds: each schedule word is overwritten just before the round that reads
   * it. The registers and the words come back under the names the next four rounds use.
   */
  method NextFour(r: Regs, w: Window, k: seq<Word>, ghost r0: Regs, ghost m: seq<Word>, ghost t: nat)
    returns (r': Regs, w': Window)
    requires |m| == 16 && t + 20 <= 64 && ConstantsFrom(k, t + 16, 4)
    requires AtStep(r, r0, m, t + 16) && w == WindowAt(m, t)
    ensures AtStep(r', r0, m, t + 20) && w' == WindowAt(m, t + 4)
  {
    hide AtStep, K, W;
    var Regs(a, b, c, d, e, f, g, h) := r;
    var Window(w0, w1, w2, w3, w4, w5, w6, w7, w8, w9, w10, w11, w12, w13, w14, w15) := w;
    d, h, w0 := LateRound(a, b, c, d, e, f, g, h, k[0], w0, w14, w9, w1, r0, m, t + 16);
    c, g, w1 := LateRound(h, a, b, c, d, e, f, g, k[1], w1, w15, w10, w2, r0, m, t + 17);
    b, f, w2 := LateRound(g, h, a, b, c, d, e, f, k[2], w2, w0, w11, w3, r0, m, t + 18);
    a, e, w3 := LateRound(f, g, h, a, b, c, d, e, k[3], w3, w1, w12, w4, r0, m, t + 19);
    r' := Regs(e, f, g, h, a, b, c, d);
    w' := Window(w4, w5, w6, w7, w8, w9, w10, w11, w12, w13, w14, w15, w0, w1, w2, w3);
  }

  /** Sixteen later rounds, after which registers and words have their first names again. */
  method NextSixteen(r: Regs, w: Window, k: seq<Word>, ghost r0: Regs, ghost m: seq<Word>, ghost t: nat)
    returns (r': Regs, w': Window)
    requires |m| == 16 && t + 32 <= 64 && ConstantsFrom(k, t + 16, 16)
    requires AtStep(r, r0, m, t + 16) && w == WindowAt(m, t)
    ensures AtStep(r', r0, m, t + 32) && w' == WindowAt(m, t + 16)
  {
    hide AtStep, K, W, WindowAt;
    r', w' := NextFour(r, w, k[..4], r0, m, t);
    r', w' := NextFour(r', w', k[4..8], r0, m, t + 4);
    r', w' := NextFour(r', w', k[8..12], r0, m, t + 8);
    r', w' := NextFour(r', w', k[12..], r0, m, t + 12);
  }

  /** What one block of 64 octets does to the eight state words. */
  function CompressBlock(s: Regs, chunk: seq<Octet>): Regs {
    if |chunk| == 64 then Compress(s, WordsBE(chunk)) else s
  }

  ghost function RegsOf(s: seq<Word>): Regs
    requires |s| == 8
  {
    Regs(s[0], s[1], s[2], s[3], s[4], s[5], s[6], s[7])
  }

  lemma ConstantsKnown()
    ensures ConstantsFrom(K0(), 0, 16) && ConstantsFrom(K1(), 16, 16)
    ensures ConstantsFrom(K2(), 32, 16) && ConstantsFrom(K3(), 48, 16)
  {
    hide K0, K1, K2, K3;
  }

  lemma FirstWindow(m: seq<Word>)
    requires |m| == 16
    ensures WindowAt(m, 0) == Window(m[0], m[1], m[2], m[3], m[4], m[5], m[6], m[7], m[8], m[9], m[10], m[11], m[12],
                                     m[13], m[14], m[15])
  {
  }

  /** The sixteen "ReadBE32" of a chunk. */
  method ReadWords(chunk: seq<Octet>) returns (m: seq<Word>)
    requires |chunk| == 64
    ensures |m| == 16 && m == WordsBE(chunk)
  {
    hide WordBE, WordsBE;
    m := [];
    for i := 0 to 16
      invariant |m| == i
      invariant forall j :: 0 <= j < i ==> m[j] == WordsBE(chunk)[j]
    {
      WordsBEAt(chunk, i);
      m := m + [WordBE(chunk[4 * i..4 * i + 4])];
    }
  }

  /** All sixty-four rounds. */
  method Rounds(r: Regs, m: seq<Word>) returns (x: Regs)
    requires |m| == 16
    ensures x == Steps(r, m, 64)
  {
    hide Add, Steps, WindowAt, ConstantsFrom, K, W, K0, K1, K2, K3;
    ConstantsKnown();
    FirstWindow(m);
    var w := Window(m[0], m[1], m[2], m[3], m[4], m[5], m[6], m[7], m[8], m[9], m[10], m[11], m[12], m[13], m[14],
            m[15]);
    x := FirstSixteen(r, m, K0());
    x, w := NextSixteen(x, w, K1(), r, m, 0);
    x, w := NextSixteen(x, w, K2(), r, m, 16);
    x, w := NextSixteen(x, w, K3(), r, m, 32);
  }

  /** The state after a chunk is the one section 6.2.2 of FIPS 180-4 computes. */
  method Transform(s: array<Word>, chunk: seq<Octet>)
    requires s.Length == 8 && |chunk| == 64
    modifies s
    ensures RegsOf(s[..]) == CompressBlock(old(RegsOf(s[..])), chunk)
  {
    hide Add, Steps, WordsBE;
    var m := ReadWords(chunk);
    var x := Rounds(Regs(s[0], s[1], s[2], s[3], s[4], s[5], s[6], s[7]), m);
    s[0] := Add(s[0], x.a);
    s[1] := Add(s[1], x.b);
    s[2] := Add(s[2], x.c);
    s[3] := Add(s[3], x.d);
    s[4] := Add(s[4], x.e);
    s[5] := Add(s[5], x.f);
    s[6] := Add(s[6], x.g);
    s[7] := Add(s[7], x.h);
  }

  const INITIAL := Regs(0x6a09e667, 0xbb67ae85, 0x3c6ef372, 0xa54ff53a, 0x510e527f, 0x9b05688c, 0x1f83d9ab, 0x5be0cd19)

  function Output(s: Regs): seq<Octet> {
    BytesBE(s.a) + BytesBE(s.b) + BytesBE(s.c) + BytesBE(s.d) + BytesBE(s.e) + BytesBE(s.f) + BytesBE(s.g) +
        BytesBE(s.h)
  }

  /** The digest is the eight registers in order, each with its high octet first. */
  lemma OutputWords(s: Regs)
    ensures |Output(s)| == 32 && WordsBE(Output(s)) == [s.a, s.b, s.c, s.d, s.e, s.f, s.g, s.h]
  {
    hide WordBE, BytesBE, WordsBE;
    var o1 := BytesBE(s.a);
    var o2 := o1 + BytesBE(s.b);
    var o3 := o2 + BytesBE(s.c);
    var o4 := o3 + BytesBE(s.d);
    var o5 := o4 + BytesBE(s.e);
    var o6 := o5 + BytesBE(s.f);
    var o7 := o6 + BytesBE(s.g);
    NoWords();
    OneMoreBE([], o1);
    assert [] + o1 == o1;
    OneMoreBE(o1, BytesBE(s.b));
    OneMoreBE(o2, BytesBE(s.c));
    OneMoreBE(o3, BytesBE(s.d));
    OneMoreBE(o4, BytesBE(s.e));
    OneMoreBE(o5, BytesBE(s.f));
    OneMoreBE(o6, BytesBE(s.g));
    OneMoreBE(o7, BytesBE(s.h));
  }
  /** The hash of a message (section 6.2 of FIPS 180-4). */
  ghost function Digest(m: seq<Octet>): seq<Octet> {
    Output(Absorb(64, CompressBlock, INITIAL, Padded(LengthBE, m)))
  }

  /** However the message is split, the object computes its digest. */
  method Hash(pieces: seq<seq<Octet>>) returns (hash: seq<Octet>)
    ensures hash == Digest(Joined(pieces))
  {
    hide Output, Compress, Absorb, Padded;
    hash := HashPieces(CompressBlock, LengthBE, Output, INITIAL, pieces);
  }
}
