/** RIPEMD-160's compression: the unrolled code against the definition of the hash. */
module Ripemd160 {
  import opened Blocks
  import opened Streaming
  import opened Words

  /** Rotation towards the most significant bit. */
  function Rol(x: Word, n: nat): Word
    requires n < 32
  {
    (x << n) | (x >> (32 - n))
  }

  function F1(x: Word, y: Word, z: Word): Word { x ^ y ^ z }
  function F2(x: Word, y: Word, z: Word): Word { (x & y) | (!x & z) }
  function F3(x: Word, y: Word, z: Word): Word { (x | !y) ^ z }
  function F4(x: Word, y: Word, z: Word): Word { (x & z) | (y & !z) }
  function F5(x: Word, y: Word, z: Word): Word { x ^ (y | !z) }

  /** A rotation, for every amount there is. */
  lemma RolRotates(x: Word)
    ensures Rol(x, 5) == x.RotateLeft(5) && Rol(x, 6) == x.RotateLeft(6) && Rol(x, 7) == x.RotateLeft(7)
    ensures Rol(x, 8) == x.RotateLeft(8) && Rol(x, 9) == x.RotateLeft(9) && Rol(x, 10) == x.RotateLeft(10)
    ensures Rol(x, 11) == x.RotateLeft(11) && Rol(x, 12) == x.RotateLeft(12) && Rol(x, 13) == x.RotateLeft(13)
    ensures Rol(x, 14) == x.RotateLeft(14) && Rol(x, 15) == x.RotateLeft(15)
  {
  }

  /** The five functions, by the values of the three bits that give a one. */
  lemma F1Bits(x: Word, y: Word, z: Word)
    ensures F1(x, y, z) == (x & y & z) | (x & !y & !z) | (!x & y & !z) | (!x & !y & z)
  {
  }

  lemma F2Bits(x: Word, y: Word, z: Word)
    ensures F2(x, y, z) == (x & y & z) | (x & y & !z) | (!x & y & z) | (!x & !y & z)
  {
  }

  lemma F3Bits(x: Word, y: Word, z: Word)
    ensures F3(x, y, z) == (x & y & !z) | (x & !y & !z) | (!x & !y & !z) | (!x & y & z)
  {
  }

  lemma F4Bits(x: Word, y: Word, z: Word)
    ensures F4(x, y, z) == (x & y & z) | (x & !y & z) | (x & y & !z) | (!x & y & !z)
  {
  }

  lemma F5Bits(x: Word, y: Word, z: Word)
    ensures F5(x, y, z) == (x & !y & z) | (!x & y & z) | (!x & y & !z) | (!x & !y & !z)
  {
  }

  // ---------------------------------------------------------------------------------
  // The definition: two lines of eighty steps on the same words

  datatype Line = Left | Right

  datatype Regs = Regs(a: Word, b: Word, c: Word, d: Word, e: Word)

  /** The permutation rho. */
  function Rho(): (p: seq<nat>)
    ensures |p| == 16 && forall i :: 0 <= i < 16 ==> p[i] < 16
  {
    [7, 4, 13, 1, 10, 6, 15, 3, 12, 0, 9, 5, 2, 14, 11, 8]
  }

  function Permuted(w: seq<nat>): (v: seq<nat>)
    requires |w| == 16 && forall i :: 0 <= i < 16 ==> w[i] < 16
    ensures |v| == 16 && forall i :: 0 <= i < 16 ==> v[i] < 16
  {
    [Rho()[w[0]], Rho()[w[1]], Rho()[w[2]], Rho()[w[3]], Rho()[w[4]], Rho()[w[5]], Rho()[w[6]], Rho()[w[7]],
     Rho()[w[8]], Rho()[w[9]], Rho()[w[10]], Rho()[w[11]], Rho()[w[12]], Rho()[w[13]], Rho()[w[14]], Rho()[w[15]]]
  }

  /** The words of a round: natural order or 9i + 5, then rho once more for each round. */
  function Order(line: Line, round: nat): (w: seq<nat>)
    ensures |w| == 16 && forall i :: 0 <= i < 16 ==> w[i] < 16
  {
    if round == 0 then seq(16, i requires 0 <= i < 16 => if line.Left? then i else (9 * i + 5) % 16)
    else Permuted(Order(line, round - 1))
  }

  /** The rotations of a round, by word, the same in both lines. */
  function Shifts(round: nat): (s: seq<nat>)
    requires round < 5
    ensures |s| == 16 && forall i :: 0 <= i < 16 ==> s[i] < 32
  {
    if round == 0 then [11, 14, 15, 12, 5, 8, 7, 9, 11, 13, 14, 15, 6, 7, 9, 8]
    else if round == 1 then [12, 13, 11, 15, 6, 9, 9, 7, 12, 15, 11, 13, 7, 8, 7, 7]
    else if round == 2 then [13, 15, 14, 11, 7, 7, 6, 8, 13, 14, 13, 12, 5, 5, 6, 9]
    else if round == 3 then [14, 11, 12, 14, 8, 6, 5, 5, 15, 12, 15, 14, 9, 9, 8, 6]
    else [15, 12, 13, 13, 9, 5, 8, 6, 14, 11, 12, 11, 8, 6, 5, 5]
  }

  /** The function and the constant of a round; the right line takes the functions backwards. */
  function F(line: Line, round: nat, x: Word, y: Word, z: Word): Word
    requires round < 5
  {
    var k := if line.Left? then round else 4 - round;
    if k == 0 then F1(x, y, z)
    else if k == 1 then F2(x, y, z)
    else if k == 2 then F3(x, y, z)
    else if k == 3 then F4(x, y, z)
    else F5(x, y, z)
  }

  function K(line: Line, round: nat): Word
    requires round < 5
  {
    if line.Left? then
      if round == 0 then 0 else if round == 1 then 0x5A827999 else if round == 2 then 0x6ED9EBA1
      else if round == 3 then 0x8F1BBCDC else 0xA953FD4E
    else
      if round == 0 then 0x50A28BE6 else if round == 1 then 0x5C4DD124 else if round == 2 then 0x6D703EF3
      else if round == 3 then 0x7A6D76E9 else 0
  }

  /** One step: five registers shift. */
  function Step(line: Line, r: Regs, m: seq<Word>, j: nat): Regs
    requires |m| == 16 && j < 80
  {
    var word := Order(line, j / 16)[j % 16];
    var t := Add(Rol(Add(Add(Add(r.a, F(line, j / 16, r.b, r.c, r.d)), m[word]), K(line, j / 16)),
            Shifts(j / 16)[word]), r.e);
    Regs(r.e, t, r.b, Rol(r.c, 10), r.d)
  }

  function Steps(line: Line, r: Regs, m: seq<Word>, n: nat): Regs
    requires |m| == 16 && n <= 80
  {
    if n == 0 then r else Step(line, Steps(line, r, m, n - 1), m, n - 1)
  }

  function Compress(h: Regs, m: seq<Word>): Regs
    requires |m| == 16
  {
    var l, r := Steps(Left, h, m, 80), Steps(Right, h, m, 80);
    Regs(Add(Add(h.b, l.c), r.d), Add(Add(h.c, l.d), r.e), Add(Add(h.d, l.e), r.a), Add(Add(h.e, l.a), r.b),
         Add(Add(h.a, l.b), r.c))
  }

  // ---------------------------------------------------------------------------------
  // The unrolled form

  ghost predicate AtStep(line: Line, now: Regs, h: Regs, m: seq<Word>, j: nat)
    requires |m| == 16 && j <= 80
  {
    now == Steps(line, h, m, j)
  }

  /** Step `j` takes word `word` and rotates by `shift`. */
  ghost predicate Takes(line: Line, j: nat, word: nat, shift: nat)
    requires j < 80
  {
    word == Order(line, j / 16)[j % 16] && shift == Shifts(j / 16)[word]
  }

  /** "Round": two registers change, and the caller renames them. */
  method Round(a: Word, b: Word, c: Word, d: Word, e: Word, f: Word, x: Word, k: Word, r: nat,
               ghost line: Line, ghost h: Regs, ghost m: seq<Word>, ghost j: nat, ghost word: nat)
    returns (a': Word, c': Word)
    requires |m| == 16 && j < 80 && AtStep(line, Regs(a, b, c, d, e), h, m, j)
    requires word < 16 && r < 32 && Takes(line, j, word, r)
    requires f == F(line, j / 16, b, c, d) && x == m[word] && k == K(line, j / 16)
    ensures AtStep(line, Regs(e, a', b, c', d), h, m, j + 1)
  {
    hide Add, Rol, F, K, Order, Shifts;
    a' := Add(Rol(Add(Add(Add(a, f), x), k), r), e);
    c' := Rol(c, 10);
  }

  lemma LeftOrder0()
    ensures Order(Left, 0) == [0, 1, 2, 3, 4, 5, 6, 7, 8, 9, 10, 11, 12, 13, 14, 15]
  {
  }

  lemma LeftOrder1()
    ensures Order(Left, 1) == [7, 4, 13, 1, 10, 6, 15, 3, 12, 0, 9, 5, 2, 14, 11, 8]
  {
    LeftOrder0();
  }

  lemma LeftOrder2()
    ensures Order(Left, 2) == [3, 10, 14, 4, 9, 15, 8, 1, 2, 7, 0, 6, 13, 11, 5, 12]
  {
    LeftOrder1();
  }

  lemma LeftOrder3()
    ensures Order(Left, 3) == [1, 9, 11, 10, 0, 8, 12, 4, 13, 3, 7, 15, 14, 5, 6, 2]
  {
    LeftOrder2();
  }

  lemma LeftOrder4()
    ensures Order(Left, 4) == [4, 0, 5, 9, 7, 12, 2, 10, 14, 1, 3, 8, 11, 6, 15, 13]
  {
    LeftOrder3();
  }

  lemma RightOrder0()
    ensures Order(Right, 0) == [5, 14, 7, 0, 9, 2, 11, 4, 13, 6, 15, 8, 1, 10, 3, 12]
  {
  }

  lemma RightOrder1()
    ensures Order(Right, 1) == [6, 11, 3, 7, 0, 13, 5, 10, 14, 15, 8, 12, 4, 9, 1, 2]
  {
    RightOrder0();
  }

  lemma RightOrder2()
    ensures Order(Right, 2) == [15, 5, 1, 3, 7, 14, 6, 9, 11, 8, 12, 2, 10, 0, 4, 13]
  {
    RightOrder1();
  }

  lemma RightOrder3()
    ensures Order(Right, 3) == [8, 6, 4, 1, 3, 11, 15, 0, 5, 12, 2, 13, 9, 7, 10, 14]
  {
    RightOrder2();
  }

  lemma RightOrder4()
    ensures Order(Right, 4) == [12, 15, 10, 4, 1, 5, 8, 7, 6, 2, 13, 14, 0, 3, 9, 11]
  {
    RightOrder3();
  }

  lemma {:induction false} TakesAt(line: Line, round: nat, i: nat, word: nat, shift: nat)
    requires round < 5 && i < 16 && word == Order(line, round)[i] && shift == Shifts(round)[word]
    ensures Takes(line, 16 * round + i, word, shift)
  {
    hide Order, Shifts;
  }

  lemma Shifts0()
    ensures Shifts(0) == [11, 14, 15, 12, 5, 8, 7, 9, 11, 13, 14, 15, 6, 7, 9, 8]
  {
  }

  lemma Shifts1()
    ensures Shifts(1) == [12, 13, 11, 15, 6, 9, 9, 7, 12, 15, 11, 13, 7, 8, 7, 7]
  {
  }

  lemma Shifts2()
    ensures Shifts(2) == [13, 15, 14, 11, 7, 7, 6, 8, 13, 14, 13, 12, 5, 5, 6, 9]
  {
  }

  lemma Shifts3()
    ensures Shifts(3) == [14, 11, 12, 14, 8, 6, 5, 5, 15, 12, 15, 14, 9, 9, 8, 6]
  {
  }

  lemma Shifts4()
    ensures Shifts(4) == [15, 12, 13, 13, 9, 5, 8, 6, 14, 11, 12, 11, 8, 6, 5, 5]
  {
  }

  lemma LeftTakes0()
    ensures Takes(Left, 0, 0, 11) && Takes(Left, 1, 1, 14) && Takes(Left, 2, 2, 15) && Takes(Left, 3, 3, 12)
    ensures Takes(Left, 4, 4, 5) && Takes(Left, 5, 5, 8) && Takes(Left, 6, 6, 7) && Takes(Left, 7, 7, 9)
    ensures Takes(Left, 8, 8, 11) && Takes(Left, 9, 9, 13) && Takes(Left, 10, 10, 14) && Takes(Left, 11, 11, 15)
    ensures Takes(Left, 12, 12, 6) && Takes(Left, 13, 13, 7) && Takes(Left, 14, 14, 9) && Takes(Left, 15, 15, 8)
  {
    hide Order, Shifts, Takes;
    LeftOrder0();
    Shifts0();
    TakesAt(Left, 0, 0, 0, 11); TakesAt(Left, 0, 1, 1, 14); TakesAt(Left, 0, 2, 2, 15); TakesAt(Left, 0, 3, 3, 12);
    TakesAt(Left, 0, 4, 4, 5); TakesAt(Left, 0, 5, 5, 8); TakesAt(Left, 0, 6, 6, 7); TakesAt(Left, 0, 7, 7, 9);
    TakesAt(Left, 0, 8, 8, 11); TakesAt(Left, 0, 9, 9, 13); TakesAt(Left, 0, 10, 10, 14); TakesAt(Left, 0, 11, 11, 15);
    TakesAt(Left, 0, 12, 12, 6); TakesAt(Left, 0, 13, 13, 7); TakesAt(Left, 0, 14, 14, 9); TakesAt(Left, 0, 15, 15, 8);
  }

  lemma LeftTakes1()
    ensures Takes(Left, 16, 7, 7) && Takes(Left, 17, 4, 6) && Takes(Left, 18, 13, 8) && Takes(Left, 19, 1, 13)
    ensures Takes(Left, 20, 10, 11) && Takes(Left, 21, 6, 9) && Takes(Left, 22, 15, 7) && Takes(Left, 23, 3, 15)
    ensures Takes(Left, 24, 12, 7) && Takes(Left, 25, 0, 12) && Takes(Left, 26, 9, 15) && Takes(Left, 27, 5, 9)
    ensures Takes(Left, 28, 2, 11) && Takes(Left, 29, 14, 7) && Takes(Left, 30, 11, 13) && Takes(Left, 31, 8, 12)
  {
    hide Order, Shifts, Takes;
    LeftOrder1();
    Shifts1();
    TakesAt(Left, 1, 0, 7, 7); TakesAt(Left, 1, 1, 4, 6); TakesAt(Left, 1, 2, 13, 8); TakesAt(Left, 1, 3, 1, 13);
    TakesAt(Left, 1, 4, 10, 11); TakesAt(Left, 1, 5, 6, 9); TakesAt(Left, 1, 6, 15, 7); TakesAt(Left, 1, 7, 3, 15);
    TakesAt(Left, 1, 8, 12, 7); TakesAt(Left, 1, 9, 0, 12); TakesAt(Left, 1, 10, 9, 15); TakesAt(Left, 1, 11, 5, 9);
    TakesAt(Left, 1, 12, 2, 11); TakesAt(Left, 1, 13, 14, 7); TakesAt(Left, 1, 14, 11, 13); TakesAt(Left, 1, 15, 8, 12);
  }

  lemma LeftTakes2()
    ensures Takes(Left, 32, 3, 11) && Takes(Left, 33, 10, 13) && Takes(Left, 34, 14, 6) && Takes(Left, 35, 4, 7)
    ensures Takes(Left, 36, 9, 14) && Takes(Left, 37, 15, 9) && Takes(Left, 38, 8, 13) && Takes(Left, 39, 1, 15)
    ensures Takes(Left, 40, 2, 14) && Takes(Left, 41, 7, 8) && Takes(Left, 42, 0, 13) && Takes(Left, 43, 6, 6)
    ensures Takes(Left, 44, 13, 5) && Takes(Left, 45, 11, 12) && Takes(Left, 46, 5, 7) && Takes(Left, 47, 12, 5)
  {
    hide Order, Shifts, Takes;
    LeftOrder2();
    Shifts2();
    TakesAt(Left, 2, 0, 3, 11); TakesAt(Left, 2, 1, 10, 13); TakesAt(Left, 2, 2, 14, 6); TakesAt(Left, 2, 3, 4, 7);
    TakesAt(Left, 2, 4, 9, 14); TakesAt(Left, 2, 5, 15, 9); TakesAt(Left, 2, 6, 8, 13); TakesAt(Left, 2, 7, 1, 15);
    TakesAt(Left, 2, 8, 2, 14); TakesAt(Left, 2, 9, 7, 8); TakesAt(Left, 2, 10, 0, 13); TakesAt(Left, 2, 11, 6, 6);
    TakesAt(Left, 2, 12, 13, 5); TakesAt(Left, 2, 13, 11, 12); TakesAt(Left, 2, 14, 5, 7); TakesAt(Left, 2, 15, 12, 5);
  }

  lemma LeftTakes3()
    ensures Takes(Left, 48, 1, 11) && Takes(Left, 49, 9, 12) && Takes(Left, 50, 11, 14) && Takes(Left, 51, 10, 15)
    ensures Takes(Left, 52, 0, 14) && Takes(Left, 53, 8, 15) && Takes(Left, 54, 12, 9) && Takes(Left, 55, 4, 8)
    ensures Takes(Left, 56, 13, 9) && Takes(Left, 57, 3, 14) && Takes(Left, 58, 7, 5) && Takes(Left, 59, 15, 6)
    ensures Takes(Left, 60, 14, 8) && Takes(Left, 61, 5, 6) && Takes(Left, 62, 6, 5) && Takes(Left, 63, 2, 12)
  {
    hide Order, Shifts, Takes;
    LeftOrder3();
    Shifts3();
    TakesAt(Left, 3, 0, 1, 11); TakesAt(Left, 3, 1, 9, 12); TakesAt(Left, 3, 2, 11, 14); TakesAt(Left, 3, 3, 10, 15);
    TakesAt(Left, 3, 4, 0, 14); TakesAt(Left, 3, 5, 8, 15); TakesAt(Left, 3, 6, 12, 9); TakesAt(Left, 3, 7, 4, 8);
    TakesAt(Left, 3, 8, 13, 9); TakesAt(Left, 3, 9, 3, 14); TakesAt(Left, 3, 10, 7, 5); TakesAt(Left, 3, 11, 15, 6);
    TakesAt(Left, 3, 12, 14, 8); TakesAt(Left, 3, 13, 5, 6); TakesAt(Left, 3, 14, 6, 5); TakesAt(Left, 3, 15, 2, 12);
  }

  lemma LeftTakes4()
    ensures Takes(Left, 64, 4, 9) && Takes(Left, 65, 0, 15) && Takes(Left, 66, 5, 5) && Takes(Left, 67, 9, 11)
    ensures Takes(Left, 68, 7, 6) && Takes(Left, 69, 12, 8) && Takes(Left, 70, 2, 13) && Takes(Left, 71, 10, 12)
    ensures Takes(Left, 72, 14, 5) && Takes(Left, 73, 1, 12) && Takes(Left, 74, 3, 13) && Takes(Left, 75, 8, 14)
    ensures Takes(Left, 76, 11, 11) && Takes(Left, 77, 6, 8) && Takes(Left, 78, 15, 5) && Takes(Left, 79, 13, 6)
  {
    hide Order, Shifts, Takes;
    LeftOrder4();
    Shifts4();
    TakesAt(Left, 4, 0, 4, 9); TakesAt(Left, 4, 1, 0, 15); TakesAt(Left, 4, 2, 5, 5); TakesAt(Left, 4, 3, 9, 11);
    TakesAt(Left, 4, 4, 7, 6); TakesAt(Left, 4, 5, 12, 8); TakesAt(Left, 4, 6, 2, 13); TakesAt(Left, 4, 7, 10, 12);
    TakesAt(Left, 4, 8, 14, 5); TakesAt(Left, 4, 9, 1, 12); TakesAt(Left, 4, 10, 3, 13); TakesAt(Left, 4, 11, 8, 14);
    TakesAt(Left, 4, 12, 11, 11); TakesAt(Left, 4, 13, 6, 8); TakesAt(Left, 4, 14, 15, 5); TakesAt(Left, 4, 15, 13, 6);
  }

  lemma RightTakes0()
    ensures Takes(Right, 0, 5, 8) && Takes(Right, 1, 14, 9) && Takes(Right, 2, 7, 9) && Takes(Right, 3, 0, 11)
    ensures Takes(Right, 4, 9, 13) && Takes(Right, 5, 2, 15) && Takes(Right, 6, 11, 15) && Takes(Right, 7, 4, 5)
    ensures Takes(Right, 8, 13, 7) && Takes(Right, 9, 6, 7) && Takes(Right, 10, 15, 8) && Takes(Right, 11, 8, 11)
    ensures Takes(Right, 12, 1, 14) && Takes(Right, 13, 10, 14) && Takes(Right, 14, 3, 12) && Takes(Right, 15, 12, 6)
  {
    hide Order, Shifts, Takes;
    RightOrder0();
    Shifts0();
    TakesAt(Right, 0, 0, 5, 8); TakesAt(Right, 0, 1, 14, 9); TakesAt(Right, 0, 2, 7, 9); TakesAt(Right, 0, 3, 0, 11);
    TakesAt(Right, 0, 4, 9, 13); TakesAt(Right, 0, 5, 2, 15); TakesAt(Right, 0, 6, 11, 15); TakesAt(Right, 0, 7, 4, 5);
    TakesAt(Right, 0, 8, 13, 7); TakesAt(Right, 0, 9, 6, 7); TakesAt(Right, 0, 10, 15, 8); TakesAt(Right, 0, 11, 8, 11);
    TakesAt(Right, 0, 12, 1, 14); TakesAt(Right, 0, 13, 10, 14); TakesAt(Right, 0, 14, 3, 12);
    TakesAt(Right, 0, 15, 12, 6);
  }

  lemma RightTakes1()
    ensures Takes(Right, 16, 6, 9) && Takes(Right, 17, 11, 13) && Takes(Right, 18, 3, 15) && Takes(Right, 19, 7, 7)
    ensures Takes(Right, 20, 0, 12) && Takes(Right, 21, 13, 8) && Takes(Right, 22, 5, 9) && Takes(Right, 23, 10, 11)
    ensures Takes(Right, 24, 14, 7) && Takes(Right, 25, 15, 7) && Takes(Right, 26, 8, 12) && Takes(Right, 27, 12, 7)
    ensures Takes(Right, 28, 4, 6) && Takes(Right, 29, 9, 15) && Takes(Right, 30, 1, 13) && Takes(Right, 31, 2, 11)
  {
    hide Order, Shifts, Takes;
    RightOrder1();
    Shifts1();
    TakesAt(Right, 1, 0, 6, 9); TakesAt(Right, 1, 1, 11, 13); TakesAt(Right, 1, 2, 3, 15); TakesAt(Right, 1, 3, 7, 7);
    TakesAt(Right, 1, 4, 0, 12); TakesAt(Right, 1, 5, 13, 8); TakesAt(Right, 1, 6, 5, 9); TakesAt(Right, 1, 7, 10, 11);
    TakesAt(Right, 1, 8, 14, 7); TakesAt(Right, 1, 9, 15, 7); TakesAt(Right, 1, 10, 8, 12);
    TakesAt(Right, 1, 11, 12, 7);
    TakesAt(Right, 1, 12, 4, 6); TakesAt(Right, 1, 13, 9, 15); TakesAt(Right, 1, 14, 1, 13);
    TakesAt(Right, 1, 15, 2, 11);
  }

  lemma RightTakes2()
    ensures Takes(Right, 32, 15, 9) && Takes(Right, 33, 5, 7) && Takes(Right, 34, 1, 15) && Takes(Right, 35, 3, 11)
    ensures Takes(Right, 36, 7, 8) && Takes(Right, 37, 14, 6) && Takes(Right, 38, 6, 6) && Takes(Right, 39, 9, 14)
    ensures Takes(Right, 40, 11, 12) && Takes(Right, 41, 8, 13) && Takes(Right, 42, 12, 5) && Takes(Right, 43, 2, 14)
    ensures Takes(Right, 44, 10, 13) && Takes(Right, 45, 0, 13) && Takes(Right, 46, 4, 7) && Takes(Right, 47, 13, 5)
  {
    hide Order, Shifts, Takes;
    RightOrder2();
    Shifts2();
    TakesAt(Right, 2, 0, 15, 9); TakesAt(Right, 2, 1, 5, 7); TakesAt(Right, 2, 2, 1, 15); TakesAt(Right, 2, 3, 3, 11);
    TakesAt(Right, 2, 4, 7, 8); TakesAt(Right, 2, 5, 14, 6); TakesAt(Right, 2, 6, 6, 6); TakesAt(Right, 2, 7, 9, 14);
    TakesAt(Right, 2, 8, 11, 12); TakesAt(Right, 2, 9, 8, 13); TakesAt(Right, 2, 10, 12, 5);
    TakesAt(Right, 2, 11, 2, 14);
    TakesAt(Right, 2, 12, 10, 13); TakesAt(Right, 2, 13, 0, 13); TakesAt(Right, 2, 14, 4, 7);
    TakesAt(Right, 2, 15, 13, 5);
  }

  lemma RightTakes3()
    ensures Takes(Right, 48, 8, 15) && Takes(Right, 49, 6, 5) && Takes(Right, 50, 4, 8) && Takes(Right, 51, 1, 11)
    ensures Takes(Right, 52, 3, 14) && Takes(Right, 53, 11, 14) && Takes(Right, 54, 15, 6) && Takes(Right, 55, 0, 14)
    ensures Takes(Right, 56, 5, 6) && Takes(Right, 57, 12, 9) && Takes(Right, 58, 2, 12) && Takes(Right, 59, 13, 9)
    ensures Takes(Right, 60, 9, 12) && Takes(Right, 61, 7, 5) && Takes(Right, 62, 10, 15) && Takes(Right, 63, 14, 8)
  {
    hide Order, Shifts, Takes;
    RightOrder3();
    Shifts3();
    TakesAt(Right, 3, 0, 8, 15); TakesAt(Right, 3, 1, 6, 5); TakesAt(Right, 3, 2, 4, 8); TakesAt(Right, 3, 3, 1, 11);
    TakesAt(Right, 3, 4, 3, 14); TakesAt(Right, 3, 5, 11, 14); TakesAt(Right, 3, 6, 15, 6); TakesAt(Right, 3, 7, 0, 14);
    TakesAt(Right, 3, 8, 5, 6); TakesAt(Right, 3, 9, 12, 9); TakesAt(Right, 3, 10, 2, 12); TakesAt(Right, 3, 11, 13, 9);
    TakesAt(Right, 3, 12, 9, 12); TakesAt(Right, 3, 13, 7, 5); TakesAt(Right, 3, 14, 10, 15);
    TakesAt(Right, 3, 15, 14, 8);
  }

  lemma RightTakes4()
    ensures Takes(Right, 64, 12, 8) && Takes(Right, 65, 15, 5) && Takes(Right, 66, 10, 12) && Takes(Right, 67, 4, 9)
    ensures Takes(Right, 68, 1, 12) && Takes(Right, 69, 5, 5) && Takes(Right, 70, 8, 14) && Takes(Right, 71, 7, 6)
    ensures Takes(Right, 72, 6, 8) && Takes(Right, 73, 2, 13) && Takes(Right, 74, 13, 6) && Takes(Right, 75, 14, 5)
    ensures Takes(Right, 76, 0, 15) && Takes(Right, 77, 3, 13) && Takes(Right, 78, 9, 11) && Takes(Right, 79, 11, 11)
  {
    hide Order, Shifts, Takes;
    RightOrder4();
    Shifts4();
    TakesAt(Right, 4, 0, 12, 8); TakesAt(Right, 4, 1, 15, 5); TakesAt(Right, 4, 2, 10, 12); TakesAt(Right, 4, 3, 4, 9);
    TakesAt(Right, 4, 4, 1, 12); TakesAt(Right, 4, 5, 5, 5); TakesAt(Right, 4, 6, 8, 14); TakesAt(Right, 4, 7, 7, 6);
    TakesAt(Right, 4, 8, 6, 8); TakesAt(Right, 4, 9, 2, 13); TakesAt(Right, 4, 10, 13, 6); TakesAt(Right, 4, 11, 14, 5);
    TakesAt(Right, 4, 12, 0, 15); TakesAt(Right, 4, 13, 3, 13); TakesAt(Right, 4, 14, 9, 11);
    TakesAt(Right, 4, 15, 11, 11);
  }

  /** Round 1 of the left line. */
  method Left1(r: Regs, w: seq<Word>, ghost h: Regs) returns (r': Regs)
    requires |w| == 16 && AtStep(Left, r, h, w, 0)
    ensures AtStep(Left, r', h, w, 16)
  {
    hide AtStep, Takes, F1;
    LeftTakes0();
    var Regs(a, b, c, d, e) := r;
    a, c := Round(a, b, c, d, e, F1(b, c, d), w[0], 0, 11, Left, h, w, 0, 0);
    e, b := Round(e, a, b, c, d, F1(a, b, c), w[1], 0, 14, Left, h, w, 1, 1);
    d, a := Round(d, e, a, b, c, F1(e, a, b), w[2], 0, 15, Left, h, w, 2, 2);
    c, e := Round(c, d, e, a, b, F1(d, e, a), w[3], 0, 12, Left, h, w, 3, 3);
    b, d := Round(b, c, d, e, a, F1(c, d, e), w[4], 0, 5, Left, h, w, 4, 4);
    a, c := Round(a, b, c, d, e, F1(b, c, d), w[5], 0, 8, Left, h, w, 5, 5);
    e, b := Round(e, a, b, c, d, F1(a, b, c), w[6], 0, 7, Left, h, w, 6, 6);
    d, a := Round(d, e, a, b, c, F1(e, a, b), w[7], 0, 9, Left, h, w, 7, 7);
    c, e := Round(c, d, e, a, b, F1(d, e, a), w[8], 0, 11, Left, h, w, 8, 8);
    b, d := Round(b, c, d, e, a, F1(c, d, e), w[9], 0, 13, Left, h, w, 9, 9);
    a, c := Round(a, b, c, d, e, F1(b, c, d), w[10], 0, 14, Left, h, w, 10, 10);
    e, b := Round(e, a, b, c, d, F1(a, b, c), w[11], 0, 15, Left, h, w, 11, 11);
    d, a := Round(d, e, a, b, c, F1(e, a, b), w[12], 0, 6, Left, h, w, 12, 12);
    c, e := Round(c, d, e, a, b, F1(d, e, a), w[13], 0, 7, Left, h, w, 13, 13);
    b, d := Round(b, c, d, e, a, F1(c, d, e), w[14], 0, 9, Left, h, w, 14, 14);
    a, c := Round(a, b, c, d, e, F1(b, c, d), w[15], 0, 8, Left, h, w, 15, 15);
    r' := Regs(e, a, b, c, d);
  }

  /** Round 2 of the left line. */
  method Left2(r: Regs, w: seq<Word>, ghost h: Regs) returns (r': Regs)
    requires |w| == 16 && AtStep(Left, r, h, w, 16)
    ensures AtStep(Left, r', h, w, 32)
  {
    hide AtStep, Takes, F2;
    LeftTakes1();
    var Regs(e, a, b, c, d) := r;
    e, b := Round(e, a, b, c, d, F2(a, b, c), w[7], 0x5A827999, 7, Left, h, w, 16, 7);
    d, a := Round(d, e, a, b, c, F2(e, a, b), w[4], 0x5A827999, 6, Left, h, w, 17, 4);
    c, e := Round(c, d, e, a, b, F2(d, e, a), w[13], 0x5A827999, 8, Left, h, w, 18, 13);
    b, d := Round(b, c, d, e, a, F2(c, d, e), w[1], 0x5A827999, 13, Left, h, w, 19, 1);
    a, c := Round(a, b, c, d, e, F2(b, c, d), w[10], 0x5A827999, 11, Left, h, w, 20, 10);
    e, b := Round(e, a, b, c, d, F2(a, b, c), w[6], 0x5A827999, 9, Left, h, w, 21, 6);
    d, a := Round(d, e, a, b, c, F2(e, a, b), w[15], 0x5A827999, 7, Left, h, w, 22, 15);
    c, e := Round(c, d, e, a, b, F2(d, e, a), w[3], 0x5A827999, 15, Left, h, w, 23, 3);
    b, d := Round(b, c, d, e, a, F2(c, d, e), w[12], 0x5A827999, 7, Left, h, w, 24, 12);
    a, c := Round(a, b, c, d, e, F2(b, c, d), w[0], 0x5A827999, 12, Left, h, w, 25, 0);
    e, b := Round(e, a, b, c, d, F2(a, b, c), w[9], 0x5A827999, 15, Left, h, w, 26, 9);
    d, a := Round(d, e, a, b, c, F2(e, a, b), w[5], 0x5A827999, 9, Left, h, w, 27, 5);
    c, e := Round(c, d, e, a, b, F2(d, e, a), w[2], 0x5A827999, 11, Left, h, w, 28, 2);
    b, d := Round(b, c, d, e, a, F2(c, d, e), w[14], 0x5A827999, 7, Left, h, w, 29, 14);
    a, c := Round(a, b, c, d, e, F2(b, c, d), w[11], 0x5A827999, 13, Left, h, w, 30, 11);
    e, b := Round(e, a, b, c, d, F2(a, b, c), w[8], 0x5A827999, 12, Left, h, w, 31, 8);
    r' := Regs(d, e, a, b, c);
  }

  /** Round 3 of the left line. */
  method Left3(r: Regs, w: seq<Word>, ghost h: Regs) returns (r': Regs)
    requires |w| == 16 && AtStep(Left, r, h, w, 32)
    ensures AtStep(Left, r', h, w, 48)
  {
    hide AtStep, Takes, F3;
    LeftTakes2();
    var Regs(d, e, a, b, c) := r;
    d, a := Round(d, e, a, b, c, F3(e, a, b), w[3], 0x6ED9EBA1, 11, Left, h, w, 32, 3);
    c, e := Round(c, d, e, a, b, F3(d, e, a), w[10], 0x6ED9EBA1, 13, Left, h, w, 33, 10);
    b, d := Round(b, c, d, e, a, F3(c, d, e), w[14], 0x6ED9EBA1, 6, Left, h, w, 34, 14);
    a, c := Round(a, b, c, d, e, F3(b, c, d), w[4], 0x6ED9EBA1, 7, Left, h, w, 35, 4);
    e, b := Round(e, a, b, c, d, F3(a, b, c), w[9], 0x6ED9EBA1, 14, Left, h, w, 36, 9);
    d, a := Round(d, e, a, b, c, F3(e, a, b), w[15], 0x6ED9EBA1, 9, Left, h, w, 37, 15);
    c, e := Round(c, d, e, a, b, F3(d, e, a), w[8], 0x6ED9EBA1, 13, Left, h, w, 38, 8);
    b, d := Round(b, c, d, e, a, F3(c, d, e), w[1], 0x6ED9EBA1, 15, Left, h, w, 39, 1);
    a, c := Round(a, b, c, d, e, F3(b, c, d), w[2], 0x6ED9EBA1, 14, Left, h, w, 40, 2);
    e, b := Round(e, a, b, c, d, F3(a, b, c), w[7], 0x6ED9EBA1, 8, Left, h, w, 41, 7);
    d, a := Round(d, e, a, b, c, F3(e, a, b), w[0], 0x6ED9EBA1, 13, Left, h, w, 42, 0);
    c, e := Round(c, d, e, a, b, F3(d, e, a), w[6], 0x6ED9EBA1, 6, Left, h, w, 43, 6);
    b, d := Round(b, c, d, e, a, F3(c, d, e), w[13], 0x6ED9EBA1, 5, Left, h, w, 44, 13);
    a, c := Round(a, b, c, d, e, F3(b, c, d), w[11], 0x6ED9EBA1, 12, Left, h, w, 45, 11);
    e, b := Round(e, a, b, c, d, F3(a, b, c), w[5], 0x6ED9EBA1, 7, Left, h, w, 46, 5);
    d, a := Round(d, e, a, b, c, F3(e, a, b), w[12], 0x6ED9EBA1, 5, Left, h, w, 47, 12);
    r' := Regs(c, d, e, a, b);
  }

  /** Round 4 of the left line. */
  method Left4(r: Regs, w: seq<Word>, ghost h: Regs) returns (r': Regs)
    requires |w| == 16 && AtStep(Left, r, h, w, 48)
    ensures AtStep(Left, r', h, w, 64)
  {
    hide AtStep, Takes, F4;
    LeftTakes3();
    var Regs(c, d, e, a, b) := r;
    c, e := Round(c, d, e, a, b, F4(d, e, a), w[1], 0x8F1BBCDC, 11, Left, h, w, 48, 1);
    b, d := Round(b, c, d, e, a, F4(c, d, e), w[9], 0x8F1BBCDC, 12, Left, h, w, 49, 9);
    a, c := Round(a, b, c, d, e, F4(b, c, d), w[11], 0x8F1BBCDC, 14, Left, h, w, 50, 11);
    e, b := Round(e, a, b, c, d, F4(a, b, c), w[10], 0x8F1BBCDC, 15, Left, h, w, 51, 10);
    d, a := Round(d, e, a, b, c, F4(e, a, b), w[0], 0x8F1BBCDC, 14, Left, h, w, 52, 0);
    c, e := Round(c, d, e, a, b, F4(d, e, a), w[8], 0x8F1BBCDC, 15, Left, h, w, 53, 8);
    b, d := Round(b, c, d, e, a, F4(c, d, e), w[12], 0x8F1BBCDC, 9, Left, h, w, 54, 12);
    a, c := Round(a, b, c, d, e, F4(b, c, d), w[4], 0x8F1BBCDC, 8, Left, h, w, 55, 4);
    e, b := Round(e, a, b, c, d, F4(a, b, c), w[13], 0x8F1BBCDC, 9, Left, h, w, 56, 13);
    d, a := Round(d, e, a, b, c, F4(e, a, b), w[3], 0x8F1BBCDC, 14, Left, h, w, 57, 3);
    c, e := Round(c, d, e, a, b, F4(d, e, a), w[7], 0x8F1BBCDC, 5, Left, h, w, 58, 7);
    b, d := Round(b, c, d, e, a, F4(c, d, e), w[15], 0x8F1BBCDC, 6, Left, h, w, 59, 15);
    a, c := Round(a, b, c, d, e, F4(b, c, d), w[14], 0x8F1BBCDC, 8, Left, h, w, 60, 14);
    e, b := Round(e, a, b, c, d, F4(a, b, c), w[5], 0x8F1BBCDC, 6, Left, h, w, 61, 5);
    d, a := Round(d, e, a, b, c, F4(e, a, b), w[6], 0x8F1BBCDC, 5, Left, h, w, 62, 6);
    c, e := Round(c, d, e, a, b, F4(d, e, a), w[2], 0x8F1BBCDC, 12, Left, h, w, 63, 2);
    r' := Regs(b, c, d, e, a);
  }

  /** Round 5 of the left line. */
  method Left5(r: Regs, w: seq<Word>, ghost h: Regs) returns (r': Regs)
    requires |w| == 16 && AtStep(Left, r, h, w, 64)
    ensures AtStep(Left, r', h, w, 80)
  {
    hide AtStep, Takes, F5;
    LeftTakes4();
    var Regs(b, c, d, e, a) := r;
    b, d := Round(b, c, d, e, a, F5(c, d, e), w[4], 0xA953FD4E, 9, Left, h, w, 64, 4);
    a, c := Round(a, b, c, d, e, F5(b, c, d), w[0], 0xA953FD4E, 15, Left, h, w, 65, 0);
    e, b := Round(e, a, b, c, d, F5(a, b, c), w[5], 0xA953FD4E, 5, Left, h, w, 66, 5);
    d, a := Round(d, e, a, b, c, F5(e, a, b), w[9], 0xA953FD4E, 11, Left, h, w, 67, 9);
    c, e := Round(c, d, e, a, b, F5(d, e, a), w[7], 0xA953FD4E, 6, Left, h, w, 68, 7);
    b, d := Round(b, c, d, e, a, F5(c, d, e), w[12], 0xA953FD4E, 8, Left, h, w, 69, 12);
    a, c := Round(a, b, c, d, e, F5(b, c, d), w[2], 0xA953FD4E, 13, Left, h, w, 70, 2);
    e, b := Round(e, a, b, c, d, F5(a, b, c), w[10], 0xA953FD4E, 12, Left, h, w, 71, 10);
    d, a := Round(d, e, a, b, c, F5(e, a, b), w[14], 0xA953FD4E, 5, Left, h, w, 72, 14);
    c, e := Round(c, d, e, a, b, F5(d, e, a), w[1], 0xA953FD4E, 12, Left, h, w, 73, 1);
    b, d := Round(b, c, d, e, a, F5(c, d, e), w[3], 0xA953FD4E, 13, Left, h, w, 74, 3);
    a, c := Round(a, b, c, d, e, F5(b, c, d), w[8], 0xA953FD4E, 14, Left, h, w, 75, 8);
    e, b := Round(e, a, b, c, d, F5(a, b, c), w[11], 0xA953FD4E, 11, Left, h, w, 76, 11);
    d, a := Round(d, e, a, b, c, F5(e, a, b), w[6], 0xA953FD4E, 8, Left, h, w, 77, 6);
    c, e := Round(c, d, e, a, b, F5(d, e, a), w[15], 0xA953FD4E, 5, Left, h, w, 78, 15);
    b, d := Round(b, c, d, e, a, F5(c, d, e), w[13], 0xA953FD4E, 6, Left, h, w, 79, 13);
    r' := Regs(a, b, c, d, e);
  }

  /** Round 1 of the right line. */
  method Right1(r: Regs, w: seq<Word>, ghost h: Regs) returns (r': Regs)
    requires |w| == 16 && AtStep(Right, r, h, w, 0)
    ensures AtStep(Right, r', h, w, 16)
  {
    hide AtStep, Takes, F5;
    RightTakes0();
    var Regs(a, b, c, d, e) := r;
    a, c := Round(a, b, c, d, e, F5(b, c, d), w[5], 0x50A28BE6, 8, Right, h, w, 0, 5);
    e, b := Round(e, a, b, c, d, F5(a, b, c), w[14], 0x50A28BE6, 9, Right, h, w, 1, 14);
    d, a := Round(d, e, a, b, c, F5(e, a, b), w[7], 0x50A28BE6, 9, Right, h, w, 2, 7);
    c, e := Round(c, d, e, a, b, F5(d, e, a), w[0], 0x50A28BE6, 11, Right, h, w, 3, 0);
    b, d := Round(b, c, d, e, a, F5(c, d, e), w[9], 0x50A28BE6, 13, Right, h, w, 4, 9);
    a, c := Round(a, b, c, d, e, F5(b, c, d), w[2], 0x50A28BE6, 15, Right, h, w, 5, 2);
    e, b := Round(e, a, b, c, d, F5(a, b, c), w[11], 0x50A28BE6, 15, Right, h, w, 6, 11);
    d, a := Round(d, e, a, b, c, F5(e, a, b), w[4], 0x50A28BE6, 5, Right, h, w, 7, 4);
    c, e := Round(c, d, e, a, b, F5(d, e, a), w[13], 0x50A28BE6, 7, Right, h, w, 8, 13);
    b, d := Round(b, c, d, e, a, F5(c, d, e), w[6], 0x50A28BE6, 7, Right, h, w, 9, 6);
    a, c := Round(a, b, c, d, e, F5(b, c, d), w[15], 0x50A28BE6, 8, Right, h, w, 10, 15);
    e, b := Round(e, a, b, c, d, F5(a, b, c), w[8], 0x50A28BE6, 11, Right, h, w, 11, 8);
    d, a := Round(d, e, a, b, c, F5(e, a, b), w[1], 0x50A28BE6, 14, Right, h, w, 12, 1);
    c, e := Round(c, d, e, a, b, F5(d, e, a), w[10], 0x50A28BE6, 14, Right, h, w, 13, 10);
    b, d := Round(b, c, d, e, a, F5(c, d, e), w[3], 0x50A28BE6, 12, Right, h, w, 14, 3);
    a, c := Round(a, b, c, d, e, F5(b, c, d), w[12], 0x50A28BE6, 6, Right, h, w, 15, 12);
    r' := Regs(e, a, b, c, d);
  }

  /** Round 2 of the right line. */
  method Right2(r: Regs, w: seq<Word>, ghost h: Regs) returns (r': Regs)
    requires |w| == 16 && AtStep(Right, r, h, w, 16)
    ensures AtStep(Right, r', h, w, 32)
  {
    hide AtStep, Takes, F4;
    RightTakes1();
    var Regs(e, a, b, c, d) := r;
    e, b := Round(e, a, b, c, d, F4(a, b, c), w[6], 0x5C4DD124, 9, Right, h, w, 16, 6);
    d, a := Round(d, e, a, b, c, F4(e, a, b), w[11], 0x5C4DD124, 13, Right, h, w, 17, 11);
    c, e := Round(c, d, e, a, b, F4(d, e, a), w[3], 0x5C4DD124, 15, Right, h, w, 18, 3);
    b, d := Round(b, c, d, e, a, F4(c, d, e), w[7], 0x5C4DD124, 7, Right, h, w, 19, 7);
    a, c := Round(a, b, c, d, e, F4(b, c, d), w[0], 0x5C4DD124, 12, Right, h, w, 20, 0);
    e, b := Round(e, a, b, c, d, F4(a, b, c), w[13], 0x5C4DD124, 8, Right, h, w, 21, 13);
    d, a := Round(d, e, a, b, c, F4(e, a, b), w[5], 0x5C4DD124, 9, Right, h, w, 22, 5);
    c, e := Round(c, d, e, a, b, F4(d, e, a), w[10], 0x5C4DD124, 11, Right, h, w, 23, 10);
    b, d := Round(b, c, d, e, a, F4(c, d, e), w[14], 0x5C4DD124, 7, Right, h, w, 24, 14);
    a, c := Round(a, b, c, d, e, F4(b, c, d), w[15], 0x5C4DD124, 7, Right, h, w, 25, 15);
    e, b := Round(e, a, b, c, d, F4(a, b, c), w[8], 0x5C4DD124, 12, Right, h, w, 26, 8);
    d, a := Round(d, e, a, b, c, F4(e, a, b), w[12], 0x5C4DD124, 7, Right, h, w, 27, 12);
    c, e := Round(c, d, e, a, b, F4(d, e, a), w[4], 0x5C4DD124, 6, Right, h, w, 28, 4);
    b, d := Round(b, c, d, e, a, F4(c, d, e), w[9], 0x5C4DD124, 15, Right, h, w, 29, 9);
    a, c := Round(a, b, c, d, e, F4(b, c, d), w[1], 0x5C4DD124, 13, Right, h, w, 30, 1);
    e, b := Round(e, a, b, c, d, F4(a, b, c), w[2], 0x5C4DD124, 11, Right, h, w, 31, 2);
    r' := Regs(d, e, a, b, c);
  }

  /** Round 3 of the right line. */
  method Right3(r: Regs, w: seq<Word>, ghost h: Regs) returns (r': Regs)
    requires |w| == 16 && AtStep(Right, r, h, w, 32)
    ensures AtStep(Right, r', h, w, 48)
  {
    hide AtStep, Takes, F3;
    RightTakes2();
    var Regs(d, e, a, b, c) := r;
    d, a := Round(d, e, a, b, c, F3(e, a, b), w[15], 0x6D703EF3, 9, Right, h, w, 32, 15);
    c, e := Round(c, d, e, a, b, F3(d, e, a), w[5], 0x6D703EF3, 7, Right, h, w, 33, 5);
    b, d := Round(b, c, d, e, a, F3(c, d, e), w[1], 0x6D703EF3, 15, Right, h, w, 34, 1);
    a, c := Round(a, b, c, d, e, F3(b, c, d), w[3], 0x6D703EF3, 11, Right, h, w, 35, 3);
    e, b := Round(e, a, b, c, d, F3(a, b, c), w[7], 0x6D703EF3, 8, Right, h, w, 36, 7);
    d, a := Round(d, e, a, b, c, F3(e, a, b), w[14], 0x6D703EF3, 6, Right, h, w, 37, 14);
    c, e := Round(c, d, e, a, b, F3(d, e, a), w[6], 0x6D703EF3, 6, Right, h, w, 38, 6);
    b, d := Round(b, c, d, e, a, F3(c, d, e), w[9], 0x6D703EF3, 14, Right, h, w, 39, 9);
    a, c := Round(a, b, c, d, e, F3(b, c, d), w[11], 0x6D703EF3, 12, Right, h, w, 40, 11);
    e, b := Round(e, a, b, c, d, F3(a, b, c), w[8], 0x6D703EF3, 13, Right, h, w, 41, 8);
    d, a := Round(d, e, a, b, c, F3(e, a, b), w[12], 0x6D703EF3, 5, Right, h, w, 42, 12);
    c, e := Round(c, d, e, a, b, F3(d, e, a), w[2], 0x6D703EF3, 14, Right, h, w, 43, 2);
    b, d := Round(b, c, d, e, a, F3(c, d, e), w[10], 0x6D703EF3, 13, Right, h, w, 44, 10);
    a, c := Round(a, b, c, d, e, F3(b, c, d), w[0], 0x6D703EF3, 13, Right, h, w, 45, 0);
    e, b := Round(e, a, b, c, d, F3(a, b, c), w[4], 0x6D703EF3, 7, Right, h, w, 46, 4);
    d, a := Round(d, e, a, b, c, F3(e, a, b), w[13], 0x6D703EF3, 5, Right, h, w, 47, 13);
    r' := Regs(c, d, e, a, b);
  }

  /** Round 4 of the right line. */
  method Right4(r: Regs, w: seq<Word>, ghost h: Regs) returns (r': Regs)
    requires |w| == 16 && AtStep(Right, r, h, w, 48)
    ensures AtStep(Right, r', h, w, 64)
  {
    hide AtStep, Takes, F2;
    RightTakes3();
    var Regs(c, d, e, a, b) := r;
    c, e := Round(c, d, e, a, b, F2(d, e, a), w[8], 0x7A6D76E9, 15, Right, h, w, 48, 8);
    b, d := Round(b, c, d, e, a, F2(c, d, e), w[6], 0x7A6D76E9, 5, Right, h, w, 49, 6);
    a, c := Round(a, b, c, d, e, F2(b, c, d), w[4], 0x7A6D76E9, 8, Right, h, w, 50, 4);
    e, b := Round(e, a, b, c, d, F2(a, b, c), w[1], 0x7A6D76E9, 11, Right, h, w, 51, 1);
    d, a := Round(d, e, a, b, c, F2(e, a, b), w[3], 0x7A6D76E9, 14, Right, h, w, 52, 3);
    c, e := Round(c, d, e, a, b, F2(d, e, a), w[11], 0x7A6D76E9, 14, Right, h, w, 53, 11);
    b, d := Round(b, c, d, e, a, F2(c, d, e), w[15], 0x7A6D76E9, 6, Right, h, w, 54, 15);
    a, c := Round(a, b, c, d, e, F2(b, c, d), w[0], 0x7A6D76E9, 14, Right, h, w, 55, 0);
    e, b := Round(e, a, b, c, d, F2(a, b, c), w[5], 0x7A6D76E9, 6, Right, h, w, 56, 5);
    d, a := Round(d, e, a, b, c, F2(e, a, b), w[12], 0x7A6D76E9, 9, Right, h, w, 57, 12);
    c, e := Round(c, d, e, a, b, F2(d, e, a), w[2], 0x7A6D76E9, 12, Right, h, w, 58, 2);
    b, d := Round(b, c, d, e, a, F2(c, d, e), w[13], 0x7A6D76E9, 9, Right, h, w, 59, 13);
    a, c := Round(a, b, c, d, e, F2(b, c, d), w[9], 0x7A6D76E9, 12, Right, h, w, 60, 9);
    e, b := Round(e, a, b, c, d, F2(a, b, c), w[7], 0x7A6D76E9, 5, Right, h, w, 61, 7);
    d, a := Round(d, e, a, b, c, F2(e, a, b), w[10], 0x7A6D76E9, 15, Right, h, w, 62, 10);
    c, e := Round(c, d, e, a, b, F2(d, e, a), w[14], 0x7A6D76E9, 8, Right, h, w, 63, 14);
    r' := Regs(b, c, d, e, a);
  }

  /** Round 5 of the right line. */
  method Right5(r: Regs, w: seq<Word>, ghost h: Regs) returns (r': Regs)
    requires |w| == 16 && AtStep(Right, r, h, w, 64)
    ensures AtStep(Right, r', h, w, 80)
  {
    hide AtStep, Takes, F1;
    RightTakes4();
    var Regs(b, c, d, e, a) := r;
    b, d := Round(b, c, d, e, a, F1(c, d, e), w[12], 0, 8, Right, h, w, 64, 12);
    a, c := Round(a, b, c, d, e, F1(b, c, d), w[15], 0, 5, Right, h, w, 65, 15);
    e, b := Round(e, a, b, c, d, F1(a, b, c), w[10], 0, 12, Right, h, w, 66, 10);
    d, a := Round(d, e, a, b, c, F1(e, a, b), w[4], 0, 9, Right, h, w, 67, 4);
    c, e := Round(c, d, e, a, b, F1(d, e, a), w[1], 0, 12, Right, h, w, 68, 1);
    b, d := Round(b, c, d, e, a, F1(c, d, e), w[5], 0, 5, Right, h, w, 69, 5);
    a, c := Round(a, b, c, d, e, F1(b, c, d), w[8], 0, 14, Right, h, w, 70, 8);
    e, b := Round(e, a, b, c, d, F1(a, b, c), w[7], 0, 6, Right, h, w, 71, 7);
    d, a := Round(d, e, a, b, c, F1(e, a, b), w[6], 0, 8, Right, h, w, 72, 6);
    c, e := Round(c, d, e, a, b, F1(d, e, a), w[2], 0, 13, Right, h, w, 73, 2);
    b, d := Round(b, c, d, e, a, F1(c, d, e), w[13], 0, 6, Right, h, w, 74, 13);
    a, c := Round(a, b, c, d, e, F1(b, c, d), w[14], 0, 5, Right, h, w, 75, 14);
    e, b := Round(e, a, b, c, d, F1(a, b, c), w[0], 0, 15, Right, h, w, 76, 0);
    d, a := Round(d, e, a, b, c, F1(e, a, b), w[3], 0, 13, Right, h, w, 77, 3);
    c, e := Round(c, d, e, a, b, F1(d, e, a), w[9], 0, 11, Right, h, w, 78, 9);
    b, d := Round(b, c, d, e, a, F1(c, d, e), w[11], 0, 11, Right, h, w, 79, 11);
    r' := Regs(a, b, c, d, e);
  }

  /** The two lines. */
  method Lines(h: Regs, w: seq<Word>) returns (l: Regs, r: Regs)
    requires |w| == 16
    ensures l == Steps(Left, h, w, 80) && r == Steps(Right, h, w, 80)
  {
    hide Steps;
    NoSteps(h, w);
    l := Left1(h, w, h);
    r := Right1(h, w, h);
    l := Left2(l, w, h);
    r := Right2(r, w, h);
    l := Left3(l, w, h);
    r := Right3(r, w, h);
    l := Left4(l, w, h);
    r := Right4(r, w, h);
    l := Left5(l, w, h);
    r := Right5(r, w, h);
  }

  lemma NoSteps(h: Regs, m: seq<Word>)
    requires |m| == 16
    ensures AtStep(Left, h, h, m, 0) && AtStep(Right, h, h, m, 0)
  {
  }

  ghost function RegsOf(s: seq<Word>): Regs
    requires |s| == 5
  {
    Regs(s[0], s[1], s[2], s[3], s[4])
  }

  /** What one block of 64 octets does to the five state words. */
  function CompressBlock(s: Regs, chunk: seq<Octet>): Regs {
    if |chunk| == 64 then Compress(s, WordsLE(chunk)) else s
  }

  /** The sixteen "ReadLE32" of a chunk. */
  method ReadWords(chunk: seq<Octet>) returns (m: seq<Word>)
    requires |chunk| == 64
    ensures |m| == 16 && m == WordsLE(chunk)
  {
    hide WordLE, WordsLE;
    m := [];
    for i := 0 to 16
      invariant |m| == i
      invariant forall j :: 0 <= j < i ==> m[j] == WordsLE(chunk)[j]
    {
      WordsLEAt(chunk, i);
      m := m + [WordLE(chunk[4 * i..4 * i + 4])];
    }
  }

  /** The state after a chunk is the one the definition computes. */
  method Transform(s: array<Word>, chunk: seq<Octet>)
    requires s.Length == 5 && |chunk| == 64
    modifies s
    ensures RegsOf(s[..]) == CompressBlock(old(RegsOf(s[..])), chunk)
  {
    hide Add, Steps, WordsLE;
    var w := ReadWords(chunk);
    var l, r := Lines(Regs(s[0], s[1], s[2], s[3], s[4]), w);
    var t := s[0];
    s[0] := Add(Add(s[1], l.c), r.d);
    s[1] := Add(Add(s[2], l.d), r.e);
    s[2] := Add(Add(s[3], l.e), r.a);
    s[3] := Add(Add(s[4], l.a), r.b);
    s[4] := Add(Add(t, l.b), r.c);
  }

  const INITIAL := Regs(0x67452301, 0xEFCDAB89, 0x98BADCFE, 0x10325476, 0xC3D2E1F0)

  function Output(s: Regs): seq<Octet> {
    BytesLE(s.a) + BytesLE(s.b) + BytesLE(s.c) + BytesLE(s.d) + BytesLE(s.e)
  }

  /** The digest is the five registers in order, each with its low octet first. */
  lemma OutputWords(s: Regs)
    ensures |Output(s)| == 20 && WordsLE(Output(s)) == [s.a, s.b, s.c, s.d, s.e]
  {
    hide WordLE, BytesLE;
    var o1 := BytesLE(s.a);
    var o2 := o1 + BytesLE(s.b);
    var o3 := o2 + BytesLE(s.c);
    var o4 := o3 + BytesLE(s.d);
    hide WordsLE;
    NoWords();
    OneMoreLE([], o1);
    assert [] + o1 == o1;
    OneMoreLE(o1, BytesLE(s.b));
    OneMoreLE(o2, BytesLE(s.c));
    OneMoreLE(o3, BytesLE(s.d));
    OneMoreLE(o4, BytesLE(s.e));
  }
  /** The initial registers are the octets 0x01 up to 0xef and down again, and a third run of high nibbles. */
  lemma InitialOctets()
    ensures Output(INITIAL) ==
      [0x01, 0x23, 0x45, 0x67, 0x89, 0xab, 0xcd, 0xef, 0xfe, 0xdc, 0xba, 0x98, 0x76, 0x54, 0x32, 0x10,
       0xf0, 0xe1, 0xd2, 0xc3]
  {
  }

  /** The hash of a message. */
  ghost function Digest(m: seq<Octet>): seq<Octet> {
    Output(Absorb(64, CompressBlock, INITIAL, Padded(LengthLE, m)))
  }

  /** However the message is split, the object computes its digest. */
  method Hash(pieces: seq<seq<Octet>>) returns (hash: seq<Octet>)
    ensures hash == Digest(Joined(pieces))
  {
    hide Output, Compress, Absorb, Padded;
    hash := HashPieces(CompressBlock, LengthLE, Output, INITIAL, pieces);
  }
}
