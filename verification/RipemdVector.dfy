/** The published test vector of RIPEMD-160 for the message "abc": the two lines that the unrolled code is compared
    with are the definition's, constant for constant. */
module RipemdVector {
  import opened Blocks
  import opened Counters
  import opened Ripemd160
  import opened Streaming
  import opened Words

  /** The message block. */
  predicate IsBlock(m: seq<Word>) {
    m == [0x80636261, 0, 0, 0, 0, 0, 0, 0, 0, 0, 0, 0, 0, 0, 0x18, 0]
  }

  /** The registers of a line after `j` steps. */
  predicate Reached(line: Line, m: seq<Word>, j: nat, r: Regs)
    requires |m| == 16 && j <= 80
  {
    Steps(line, INITIAL, m, j) == r
  }

  /** One step with the word, the constant and the rotation it takes. */
  function Stepped(line: Line, round: nat, r: Regs, x: Word, k: Word, shift: nat): Regs
    requires round < 5 && shift < 32
  {
    Regs(r.e, Add(Rol(Add(Add(Add(r.a, F(line, round, r.b, r.c, r.d)), x), k), shift), r.e), r.b, Rol(r.c, 10), r.d)
  }

  lemma OneStep(line: Line, m: seq<Word>, j: nat, word: nat, shift: nat, x: Word, k: Word, r: Regs)
    requires |m| == 16 && j < 80 && word < 16 && shift < 32 && Reached(line, m, j, r) && Takes(line, j, word, shift)
    requires m[word] == x && K(line, j / 16) == k
    ensures Reached(line, m, j + 1, Stepped(line, j / 16, r, x, k, shift))
  {
    hide Order, Shifts, F, K, Rol, Add;
  }

  lemma Start(line: Line, m: seq<Word>)
    requires |m| == 16
    ensures Reached(line, m, 0, INITIAL)
  {
  }

  // ---------------------------------------------------------------------------------
  // The left line

  lemma LeftTo4(m: seq<Word>)
    requires |m| == 16 && IsBlock(m)
    ensures Reached(Left, m, 4, Regs(0x36ae27bf, 0xd3786413, 0x3a35dc50, 0x464b56d0, 0x57f19cc4))
  {
    hide Reached, Takes, Order, Shifts;
    Start(Left, m);
    LeftTakes0();
    OneStep(Left, m, 0, 0, 11, 0x80636261, 0,
      Regs(0x67452301, 0xefcdab89, 0x98badcfe, 0x10325476, 0xc3d2e1f0));
    OneStep(Left, m, 1, 1, 14, 0, 0,
      Regs(0xc3d2e1f0, 0x3115fc67, 0xefcdab89, 0xeb73fa62, 0x10325476));
    OneStep(Left, m, 2, 2, 15, 0, 0,
      Regs(0x10325476, 0xb41192d5, 0x3115fc67, 0x36ae27bf, 0xeb73fa62));
    OneStep(Left, m, 3, 3, 12, 0, 0,
      Regs(0xeb73fa62, 0x3a35dc50, 0xb41192d5, 0x57f19cc4, 0x36ae27bf));
  }

  lemma LeftTo8(m: seq<Word>)
    requires |m| == 16 && IsBlock(m)
    ensures Reached(Left, m, 8, Regs(0xe1904f4d, 0x3d6f601f, 0x150bd8a8, 0xafd8cb54, 0x519c803a))
  {
    hide Reached, Takes, Order, Shifts;
    LeftTo4(m);
    LeftTakes0();
    OneStep(Left, m, 4, 4, 5, 0, 0,
      Regs(0x36ae27bf, 0xd3786413, 0x3a35dc50, 0x464b56d0, 0x57f19cc4));
    OneStep(Left, m, 5, 5, 8, 0, 0,
      Regs(0x57f19cc4, 0x0e946720, 0xd3786413, 0xd77140e8, 0x464b56d0));
    OneStep(Left, m, 6, 6, 7, 0, 0,
      Regs(0x464b56d0, 0xd52bf632, 0x0e946720, 0xe1904f4d, 0xd77140e8));
    OneStep(Left, m, 7, 7, 9, 0, 0,
      Regs(0xd77140e8, 0x150bd8a8, 0xd52bf632, 0x519c803a, 0xe1904f4d));
  }

  lemma LeftTo16(m: seq<Word>)
    requires |m| == 16 && IsBlock(m)
    ensures Reached(Left, m, 16, Regs(0xb2925676, 0x597bf629, 0x85861d02, 0x53c14c52, 0x17d1bef0))
  {
    hide Reached, Takes, Order, Shifts;
    LeftTo8(m);
    LeftTakes0();
    OneStep(Left, m, 8, 8, 11, 0, 0,
      Regs(0xe1904f4d, 0x3d6f601f, 0x150bd8a8, 0xafd8cb54, 0x519c803a));
    OneStep(Left, m, 9, 9, 13, 0, 0,
      Regs(0x519c803a, 0xb7b60384, 0x3d6f601f, 0x2f62a054, 0xafd8cb54));
    OneStep(Left, m, 10, 10, 14, 0, 0,
      Regs(0xafd8cb54, 0xb85a0a3f, 0xb7b60384, 0xbd807cf5, 0x2f62a054));
    OneStep(Left, m, 11, 11, 15, 0, 0,
      Regs(0x2f62a054, 0x7f8b38e5, 0xb85a0a3f, 0xd80e12de, 0xbd807cf5));
    OneStep(Left, m, 12, 12, 6, 0, 0,
      Regs(0xbd807cf5, 0x9daca495, 0x7f8b38e5, 0x6828fee1, 0xd80e12de));
    OneStep(Left, m, 13, 13, 7, 0, 0,
      Regs(0xd80e12de, 0xbc05f46f, 0x9daca495, 0x2ce395fe, 0x6828fee1));
    OneStep(Left, m, 14, 14, 9, 0x00000018, 0,
      Regs(0x6828fee1, 0x1494f053, 0xbc05f46f, 0xb2925676, 0x2ce395fe));
    OneStep(Left, m, 15, 15, 8, 0, 0,
      Regs(0x2ce395fe, 0x85861d02, 0x1494f053, 0x17d1bef0, 0xb2925676));
  }

  lemma LeftTo24(m: seq<Word>)
    requires |m| == 16 && IsBlock(m)
    ensures Reached(Left, m, 24, Regs(0xbc5add7a, 0x4d4d4377, 0x042ecc93, 0x332f4ff0, 0xcc352d05))
  {
    hide Reached, Takes, Order, Shifts;
    LeftTo16(m);
    LeftTakes1();
    OneStep(Left, m, 16, 7, 7, 0, 0x5a827999,
      Regs(0xb2925676, 0x597bf629, 0x85861d02, 0x53c14c52, 0x17d1bef0));
    OneStep(Left, m, 17, 4, 6, 0, 0x5a827999,
      Regs(0x17d1bef0, 0x6347ef78, 0x597bf629, 0x18740a16, 0x53c14c52));
    OneStep(Left, m, 18, 13, 8, 0, 0x5a827999,
      Regs(0x53c14c52, 0x45c8fa44, 0x6347ef78, 0xefd8a565, 0x18740a16));
    OneStep(Left, m, 19, 1, 13, 0, 0x5a827999,
      Regs(0x18740a16, 0xad2956af, 0x45c8fa44, 0x1fbde18d, 0xefd8a565));
    OneStep(Left, m, 20, 10, 11, 0, 0x5a827999,
      Regs(0xefd8a565, 0x5eaf16b7, 0xad2956af, 0x23e91117, 0x1fbde18d));
    OneStep(Left, m, 21, 6, 9, 0, 0x5a827999,
      Regs(0x1fbde18d, 0x41730d4b, 0x5eaf16b7, 0xa55abeb4, 0x23e91117));
    OneStep(Left, m, 22, 15, 7, 0, 0x5a827999,
      Regs(0x23e91117, 0xfc0ccbd3, 0x41730d4b, 0xbc5add7a, 0xa55abeb4));
    OneStep(Left, m, 23, 3, 15, 0, 0x5a827999,
      Regs(0xa55abeb4, 0x042ecc93, 0xfc0ccbd3, 0xcc352d05, 0xbc5add7a));
  }

  lemma LeftTo32(m: seq<Word>)
    requires |m| == 16 && IsBlock(m)
    ensures Reached(Left, m, 32, Regs(0x287f668c, 0x2d30fa02, 0xb6a665c6, 0x8477bbdc, 0x8acc6ef6))
  {
    hide Reached, Takes, Order, Shifts;
    LeftTo24(m);
    LeftTakes1();
    OneStep(Left, m, 24, 12, 7, 0, 0x5a827999,
      Regs(0xbc5add7a, 0x4d4d4377, 0x042ecc93, 0x332f4ff0, 0xcc352d05));
    OneStep(Left, m, 25, 0, 12, 0x80636261, 0x5a827999,
      Regs(0xcc352d05, 0x5207002b, 0x4d4d4377, 0xbb324c10, 0x332f4ff0));
    OneStep(Left, m, 26, 9, 15, 0, 0x5a827999,
      Regs(0x332f4ff0, 0x388278f5, 0x5207002b, 0x350ddd35, 0xbb324c10));
    OneStep(Left, m, 27, 5, 9, 0, 0x5a827999,
      Regs(0xbb324c10, 0x62879d70, 0x388278f5, 0x1c00ad48, 0x350ddd35));
    OneStep(Left, m, 28, 2, 11, 0, 0x5a827999,
      Regs(0x350ddd35, 0xa30a1fd9, 0x62879d70, 0x09e3d4e2, 0x1c00ad48));
    OneStep(Left, m, 29, 14, 7, 0x00000018, 0x5a827999,
      Regs(0x1c00ad48, 0xbda2b31b, 0xa30a1fd9, 0x1e75c18a, 0x09e3d4e2));
    OneStep(Left, m, 30, 11, 13, 0, 0x5a827999,
      Regs(0x09e3d4e2, 0xf7211dee, 0xbda2b31b, 0x287f668c, 0x1e75c18a));
    OneStep(Left, m, 31, 8, 12, 0, 0x5a827999,
      Regs(0x1e75c18a, 0xb6a665c6, 0xf7211dee, 0x8acc6ef6, 0x287f668c));
  }

  lemma LeftTo40(m: seq<Word>)
    requires |m| == 16 && IsBlock(m)
    ensures Reached(Left, m, 40, Regs(0xe5897b54, 0x960f7bfd, 0x681d30b9, 0x3796c9fb, 0x40326761))
  {
    hide Reached, Takes, Order, Shifts;
    LeftTo32(m);
    LeftTakes2();
    OneStep(Left, m, 32, 3, 11, 0, 0x6ed9eba1,
      Regs(0x287f668c, 0x2d30fa02, 0xb6a665c6, 0x8477bbdc, 0x8acc6ef6));
    OneStep(Left, m, 33, 10, 13, 0, 0x6ed9eba1,
      Regs(0x8acc6ef6, 0xc76d12f9, 0x2d30fa02, 0x99971ada, 0x8477bbdc));
    OneStep(Left, m, 34, 14, 6, 0x00000018, 0x6ed9eba1,
      Regs(0x8477bbdc, 0x516f84df, 0xc76d12f9, 0xc3e808b4, 0x99971ada));
    OneStep(Left, m, 35, 4, 7, 0, 0x6ed9eba1,
      Regs(0x99971ada, 0xf3fa5b05, 0x516f84df, 0xb44be71d, 0xc3e808b4));
    OneStep(Left, m, 36, 9, 14, 0, 0x6ed9eba1,
      Regs(0xc3e808b4, 0xd539625e, 0xf3fa5b05, 0xbe137d45, 0xb44be71d));
    OneStep(Left, m, 37, 15, 9, 0, 0x6ed9eba1,
      Regs(0xb44be71d, 0xd8500c99, 0xd539625e, 0xe96c17cf, 0xbe137d45));
    OneStep(Left, m, 38, 8, 13, 0, 0x6ed9eba1,
      Regs(0xbe137d45, 0x7ecde5b2, 0xd8500c99, 0xe5897b54, 0xe96c17cf));
    OneStep(Left, m, 39, 1, 15, 0, 0x6ed9eba1,
      Regs(0xe96c17cf, 0x681d30b9, 0x7ecde5b2, 0x40326761, 0xe5897b54));
  }

  lemma LeftTo48(m: seq<Word>)
    requires |m| == 16 && IsBlock(m)
    ensures Reached(Left, m, 48, Regs(0x2c01a201, 0x77367f5e, 0xdbc5a2cb, 0xaf097749, 0x6ea06d1d))
  {
    hide Reached, Takes, Order, Shifts;
    LeftTo40(m);
    LeftTakes2();
    OneStep(Left, m, 40, 2, 14, 0, 0x6ed9eba1,
      Regs(0xe5897b54, 0x960f7bfd, 0x681d30b9, 0x3796c9fb, 0x40326761));
    OneStep(Left, m, 41, 7, 8, 0, 0x6ed9eba1,
      Regs(0x40326761, 0x6770e498, 0x960f7bfd, 0x74c2e5a0, 0x3796c9fb));
    OneStep(Left, m, 42, 0, 13, 0x80636261, 0x6ed9eba1,
      Regs(0x3796c9fb, 0x75eb06c5, 0x6770e498, 0x3deff658, 0x74c2e5a0));
    OneStep(Left, m, 43, 6, 6, 0, 0x6ed9eba1,
      Regs(0x74c2e5a0, 0x14fa827a, 0x75eb06c5, 0xc392619d, 0x3deff658));
    OneStep(Left, m, 44, 13, 5, 0, 0x6ed9eba1,
      Regs(0x3deff658, 0x804b0068, 0x14fa827a, 0xac1b15d7, 0xc392619d));
    OneStep(Left, m, 45, 11, 12, 0, 0x6ed9eba1,
      Regs(0xc392619d, 0x475ba81b, 0x804b0068, 0xea09e853, 0xac1b15d7));
    OneStep(Left, m, 46, 5, 7, 0, 0x6ed9eba1,
      Regs(0xac1b15d7, 0xd26bc25d, 0x475ba81b, 0x2c01a201, 0xea09e853));
    OneStep(Left, m, 47, 12, 5, 0, 0x6ed9eba1,
      Regs(0xea09e853, 0xdbc5a2cb, 0xd26bc25d, 0x6ea06d1d, 0x2c01a201));
  }

  lemma LeftTo56(m: seq<Word>)
    requires |m| == 16 && IsBlock(m)
    ensures Reached(Left, m, 56, Regs(0xfe70c9fa, 0x5e3201fc, 0xa96be4c7, 0xdc45fdd6, 0xbfe80483))
  {
    hide Reached, Takes, Order, Shifts;
    LeftTo48(m);
    LeftTakes3();
    OneStep(Left, m, 48, 1, 11, 0, 0x8f1bbcdc,
      Regs(0x2c01a201, 0x77367f5e, 0xdbc5a2cb, 0xaf097749, 0x6ea06d1d));
    OneStep(Left, m, 49, 9, 12, 0, 0x8f1bbcdc,
      Regs(0x6ea06d1d, 0x8155a6b4, 0x77367f5e, 0x168b2f6f, 0xaf097749));
    OneStep(Left, m, 50, 11, 14, 0, 0x8f1bbcdc,
      Regs(0xaf097749, 0xc90c4d38, 0x8155a6b4, 0xd9fd79dc, 0x168b2f6f));
    OneStep(Left, m, 51, 10, 15, 0, 0x8f1bbcdc,
      Regs(0x168b2f6f, 0x9762713b, 0xc90c4d38, 0x569ad205, 0xd9fd79dc));
    OneStep(Left, m, 52, 0, 14, 0x80636261, 0x8f1bbcdc,
      Regs(0xd9fd79dc, 0x7ebf9c32, 0x9762713b, 0x3134e324, 0x569ad205));
    OneStep(Left, m, 53, 8, 15, 0, 0x8f1bbcdc,
      Regs(0x569ad205, 0x20effa01, 0x7ebf9c32, 0x89c4ee5d, 0x3134e324));
    OneStep(Left, m, 54, 12, 9, 0, 0x8f1bbcdc,
      Regs(0x3134e324, 0x75b7117f, 0x20effa01, 0xfe70c9fa, 0x89c4ee5d));
    OneStep(Left, m, 55, 4, 8, 0, 0x8f1bbcdc,
      Regs(0x89c4ee5d, 0xa96be4c7, 0x75b7117f, 0xbfe80483, 0xfe70c9fa));
  }

  lemma LeftTo64(m: seq<Word>)
    requires |m| == 16 && IsBlock(m)
    ensures Reached(Left, m, 64, Regs(0xcc3ad1a8, 0xf44b53a7, 0x210769b3, 0xabd4f9e6, 0x96081053))
  {
    hide Reached, Takes, Order, Shifts;
    LeftTo56(m);
    LeftTakes3();
    OneStep(Left, m, 56, 13, 9, 0, 0x8f1bbcdc,
      Regs(0xfe70c9fa, 0x5e3201fc, 0xa96be4c7, 0xdc45fdd6, 0xbfe80483));
    OneStep(Left, m, 57, 3, 14, 0, 0x8f1bbcdc,
      Regs(0xbfe80483, 0x2cf95a98, 0x5e3201fc, 0xaf931ea5, 0xdc45fdd6));
    OneStep(Left, m, 58, 7, 5, 0, 0x8f1bbcdc,
      Regs(0xdc45fdd6, 0x1393f0c3, 0x2cf95a98, 0xc807f178, 0xaf931ea5));
    OneStep(Left, m, 59, 15, 6, 0, 0x8f1bbcdc,
      Regs(0xaf931ea5, 0xbb49ccf7, 0x1393f0c3, 0xe56a60b3, 0xc807f178));
    OneStep(Left, m, 60, 14, 8, 0x00000018, 0x8f1bbcdc,
      Regs(0xc807f178, 0x6a330eb4, 0xbb49ccf7, 0x4fc30c4e, 0xe56a60b3));
    OneStep(Left, m, 61, 5, 6, 0, 0x8f1bbcdc,
      Regs(0xe56a60b3, 0x14e58204, 0x6a330eb4, 0x2733deed, 0x4fc30c4e));
    OneStep(Left, m, 62, 6, 5, 0, 0x8f1bbcdc,
      Regs(0x4fc30c4e, 0x79aaf53e, 0x14e58204, 0xcc3ad1a8, 0x2733deed));
    OneStep(Left, m, 63, 2, 12, 0, 0x8f1bbcdc,
      Regs(0x2733deed, 0x210769b3, 0x79aaf53e, 0x96081053, 0xcc3ad1a8));
  }

  lemma LeftTo72(m: seq<Word>)
    requires |m| == 16 && IsBlock(m)
    ensures Reached(Left, m, 72, Regs(0x190096b6, 0xba84c782, 0xa719d8bc, 0xb8e44189, 0xa0eed4a6))
  {
    hide Reached, Takes, Order, Shifts;
    LeftTo64(m);
    LeftTakes4();
    OneStep(Left, m, 64, 4, 9, 0, 0xa953fd4e,
      Regs(0xcc3ad1a8, 0xf44b53a7, 0x210769b3, 0xabd4f9e6, 0x96081053));
    OneStep(Left, m, 65, 0, 15, 0x80636261, 0xa953fd4e,
      Regs(0x96081053, 0x7c1e3640, 0xf44b53a7, 0x1da6cc84, 0xabd4f9e6));
    OneStep(Left, m, 66, 5, 5, 0, 0xa953fd4e,
      Regs(0xabd4f9e6, 0x06b59ee8, 0x7c1e3640, 0x2d4e9fd1, 0x1da6cc84));
    OneStep(Left, m, 67, 9, 11, 0, 0xa953fd4e,
      Regs(0x1da6cc84, 0xc422c3cd, 0x06b59ee8, 0x78d901f0, 0x2d4e9fd1));
    OneStep(Left, m, 68, 7, 6, 0, 0xa953fd4e,
      Regs(0x2d4e9fd1, 0xad864025, 0xc422c3cd, 0xd67ba01a, 0x78d901f0));
    OneStep(Left, m, 69, 12, 8, 0, 0xa953fd4e,
      Regs(0x78d901f0, 0x29a83bb5, 0xad864025, 0x8b0f3710, 0xd67ba01a));
    OneStep(Left, m, 70, 2, 13, 0, 0xa953fd4e,
      Regs(0xd67ba01a, 0x626e3910, 0x29a83bb5, 0x190096b6, 0x8b0f3710));
    OneStep(Left, m, 71, 10, 12, 0, 0xa953fd4e,
      Regs(0x8b0f3710, 0xa719d8bc, 0x626e3910, 0xa0eed4a6, 0x190096b6));
  }

  lemma LeftTo80(m: seq<Word>)
    requires |m| == 16 && IsBlock(m)
    ensures Reached(Left, m, 80, Regs(0x641129ca, 0xd563bfdc, 0x0b2cdc01, 0x6e413468, 0xfc433da8))
  {
    hide Reached, Takes, Order, Shifts;
    LeftTo72(m);
    LeftTakes4();
    OneStep(Left, m, 72, 14, 5, 0x00000018, 0xa953fd4e,
      Regs(0x190096b6, 0xba84c782, 0xa719d8bc, 0xb8e44189, 0xa0eed4a6));
    OneStep(Left, m, 73, 1, 12, 0, 0xa953fd4e,
      Regs(0xa0eed4a6, 0x9f6887a9, 0xba84c782, 0x6762f29c, 0xb8e44189));
    OneStep(Left, m, 74, 3, 13, 0, 0xa953fd4e,
      Regs(0xb8e44189, 0x3a88288c, 0x9f6887a9, 0x131e0aea, 0x6762f29c));
    OneStep(Left, m, 75, 8, 14, 0, 0xa953fd4e,
      Regs(0x6762f29c, 0xab23f78f, 0x3a88288c, 0xa21ea67d, 0x131e0aea));
    OneStep(Left, m, 76, 11, 11, 0, 0xa953fd4e,
      Regs(0x131e0aea, 0x7299044a, 0xab23f78f, 0x20a230ea, 0xa21ea67d));
    OneStep(Left, m, 77, 6, 8, 0, 0xa953fd4e,
      Regs(0xa21ea67d, 0x6a3f10cf, 0x7299044a, 0x8fde3eac, 0x20a230ea));
    OneStep(Left, m, 78, 15, 5, 0, 0xa953fd4e,
      Regs(0x20a230ea, 0x1a1b904d, 0x6a3f10cf, 0x641129ca, 0x8fde3eac));
    OneStep(Left, m, 79, 13, 6, 0, 0xa953fd4e,
      Regs(0x8fde3eac, 0x0b2cdc01, 0x1a1b904d, 0xfc433da8, 0x641129ca));
  }

  // ---------------------------------------------------------------------------------
  // The right line

  lemma RightTo8(m: seq<Word>)
    requires |m| == 16 && IsBlock(m)
    ensures Reached(Right, m, 8, Regs(0xcade6e4a, 0xe755f422, 0x8b2d9fb3, 0xc2664b96, 0x247fcbe4))
  {
    hide Reached, Takes, Order, Shifts;
    Start(Right, m);
    RightTakes0();
    OneStep(Right, m, 0, 5, 8, 0, 0x50a28be6,
      Regs(0x67452301, 0xefcdab89, 0x98badcfe, 0x10325476, 0xc3d2e1f0));
    OneStep(Right, m, 1, 14, 9, 0x00000018, 0x50a28be6,
      Regs(0xc3d2e1f0, 0xddd63fb8, 0xefcdab89, 0xeb73fa62, 0x10325476));
    OneStep(Right, m, 2, 7, 9, 0, 0x50a28be6,
      Regs(0x10325476, 0x322e7ae3, 0xddd63fb8, 0x36ae27bf, 0xeb73fa62));
    OneStep(Right, m, 3, 0, 11, 0x80636261, 0x50a28be6,
      Regs(0xeb73fa62, 0x883ee903, 0x322e7ae3, 0x58fee377, 0x36ae27bf));
    OneStep(Right, m, 4, 9, 13, 0, 0x50a28be6,
      Regs(0x36ae27bf, 0x92b2b79b, 0x883ee903, 0xb9eb8cc8, 0x58fee377));
    OneStep(Right, m, 5, 2, 15, 0, 0x50a28be6,
      Regs(0x58fee377, 0xf9091ff2, 0x92b2b79b, 0xfba40e20, 0xb9eb8cc8));
    OneStep(Right, m, 6, 11, 15, 0, 0x50a28be6,
      Regs(0xb9eb8cc8, 0xe5b09992, 0xf9091ff2, 0xcade6e4a, 0xfba40e20));
    OneStep(Right, m, 7, 4, 5, 0, 0x50a28be6,
      Regs(0xfba40e20, 0x8b2d9fb3, 0xe5b09992, 0x247fcbe4, 0xcade6e4a));
  }

  lemma RightTo16(m: seq<Word>)
    requires |m| == 16 && IsBlock(m)
    ensures Reached(Right, m, 16, Regs(0xfdb61089, 0xff459078, 0x3d16242d, 0x0fd356cf, 0x005a1576))
  {
    hide Reached, Takes, Order, Shifts;
    RightTo8(m);
    RightTakes0();
    OneStep(Right, m, 8, 13, 7, 0, 0x50a28be6,
      Regs(0xcade6e4a, 0xe755f422, 0x8b2d9fb3, 0xc2664b96, 0x247fcbe4));
    OneStep(Right, m, 9, 6, 7, 0, 0x50a28be6,
      Regs(0x247fcbe4, 0x5922d09e, 0xe755f422, 0xb67ece2c, 0xc2664b96));
    OneStep(Right, m, 10, 15, 8, 0, 0x50a28be6,
      Regs(0xc2664b96, 0xcf24e72c, 0x5922d09e, 0x57d08b9d, 0xb67ece2c));
    OneStep(Right, m, 11, 8, 11, 0, 0x50a28be6,
      Regs(0xb67ece2c, 0xca6a1c75, 0xcf24e72c, 0x8b427964, 0x57d08b9d));
    OneStep(Right, m, 12, 1, 14, 0, 0x50a28be6,
      Regs(0x57d08b9d, 0x227f6d84, 0xca6a1c75, 0x939cb33c, 0x8b427964));
    OneStep(Right, m, 13, 10, 14, 0, 0x50a28be6,
      Regs(0x8b427964, 0x5d801685, 0x227f6d84, 0xa871d729, 0x939cb33c));
    OneStep(Right, m, 14, 3, 12, 0, 0x50a28be6,
      Regs(0x939cb33c, 0xb3c3f4d5, 0x5d801685, 0xfdb61089, 0xa871d729));
    OneStep(Right, m, 15, 12, 6, 0, 0x50a28be6,
      Regs(0xa871d729, 0x3d16242d, 0xb3c3f4d5, 0x005a1576, 0xfdb61089));
  }

  lemma RightTo24(m: seq<Word>)
    requires |m| == 16 && IsBlock(m)
    ensures Reached(Right, m, 24, Regs(0x85ccb989, 0x5fc74686, 0x82f89bd1, 0xf159a090, 0xb49ebd17))
  {
    hide Reached, Takes, Order, Shifts;
    RightTo16(m);
    RightTakes1();
    OneStep(Right, m, 16, 6, 9, 0, 0x5c4dd124,
      Regs(0xfdb61089, 0xff459078, 0x3d16242d, 0x0fd356cf, 0x005a1576));
    OneStep(Right, m, 17, 11, 13, 0, 0x5c4dd124,
      Regs(0x005a1576, 0x927e40a8, 0xff459078, 0x5890b4f4, 0x0fd356cf));
    OneStep(Right, m, 18, 3, 15, 0, 0x5c4dd124,
      Regs(0x0fd356cf, 0xacbb994e, 0x927e40a8, 0x1641e3fd, 0x5890b4f4));
    OneStep(Right, m, 19, 7, 7, 0, 0x5c4dd124,
      Regs(0x5890b4f4, 0xad30ad24, 0xacbb994e, 0xf902a249, 0x1641e3fd));
    OneStep(Right, m, 20, 0, 12, 0x80636261, 0x5c4dd124,
      Regs(0x1641e3fd, 0x6261732e, 0xad30ad24, 0xee653ab2, 0xf902a249));
    OneStep(Right, m, 21, 13, 8, 0, 0x5c4dd124,
      Regs(0xf902a249, 0x45ed27af, 0x6261732e, 0xc2b492b4, 0xee653ab2));
    OneStep(Right, m, 22, 5, 9, 0, 0x5c4dd124,
      Regs(0xee653ab2, 0x243c5668, 0x45ed27af, 0x85ccb989, 0xc2b492b4));
    OneStep(Right, m, 23, 10, 11, 0, 0x5c4dd124,
      Regs(0xc2b492b4, 0x82f89bd1, 0x243c5668, 0xb49ebd17, 0x85ccb989));
  }

  lemma RightTo32(m: seq<Word>)
    requires |m| == 16 && IsBlock(m)
    ensures Reached(Right, m, 32, Regs(0xa4372b30, 0x2999255a, 0xaa98adb5, 0x86d69581, 0xf5897a18))
  {
    hide Reached, Takes, Order, Shifts;
    RightTo24(m);
    RightTakes1();
    OneStep(Right, m, 24, 14, 7, 0x00000018, 0x5c4dd124,
      Regs(0x85ccb989, 0x5fc74686, 0x82f89bd1, 0xf159a090, 0xb49ebd17));
    OneStep(Right, m, 25, 15, 7, 0, 0x5c4dd124,
      Regs(0xb49ebd17, 0xb2720031, 0x5fc74686, 0xe26f460b, 0xf159a090));
    OneStep(Right, m, 26, 8, 12, 0, 0x5c4dd124,
      Regs(0xf159a090, 0x58a100f8, 0xb2720031, 0x1d1a197f, 0xe26f460b));
    OneStep(Right, m, 27, 12, 7, 0, 0x5c4dd124,
      Regs(0xe26f460b, 0x5992068b, 0x58a100f8, 0xc800c6c9, 0x1d1a197f));
    OneStep(Right, m, 28, 4, 6, 0, 0x5c4dd124,
      Regs(0x1d1a197f, 0xcc290dca, 0x5992068b, 0x8403e162, 0xc800c6c9));
    OneStep(Right, m, 29, 9, 15, 0, 0x5c4dd124,
      Regs(0xc800c6c9, 0x863d625e, 0xcc290dca, 0x481a2d66, 0x8403e162));
    OneStep(Right, m, 30, 1, 13, 0, 0x5c4dd124,
      Regs(0x8403e162, 0x6061b5a5, 0x863d625e, 0xa4372b30, 0x481a2d66));
    OneStep(Right, m, 31, 2, 11, 0, 0x5c4dd124,
      Regs(0x481a2d66, 0xaa98adb5, 0x6061b5a5, 0xf5897a18, 0xa4372b30));
  }

  lemma RightTo40(m: seq<Word>)
    requires |m| == 16 && IsBlock(m)
    ensures Reached(Right, m, 40, Regs(0x2d22eb17, 0xc699295b, 0x333f2212, 0xe5b74a20, 0xa1b7ec14))
  {
    hide Reached, Takes, Order, Shifts;
    RightTo32(m);
    RightTakes2();
    OneStep(Right, m, 32, 15, 9, 0, 0x6d703ef3,
      Regs(0xa4372b30, 0x2999255a, 0xaa98adb5, 0x86d69581, 0xf5897a18));
    OneStep(Right, m, 33, 5, 7, 0, 0x6d703ef3,
      Regs(0xf5897a18, 0x98237631, 0x2999255a, 0x62b6d6aa, 0x86d69581));
    OneStep(Right, m, 34, 1, 15, 0, 0x6d703ef3,
      Regs(0x86d69581, 0x6c472a90, 0x98237631, 0x649568a6, 0x62b6d6aa));
    OneStep(Right, m, 35, 3, 11, 0, 0x6d703ef3,
      Regs(0x62b6d6aa, 0x2ead5672, 0x6c472a90, 0x8dd8c660, 0x649568a6));
    OneStep(Right, m, 36, 7, 8, 0, 0x6d703ef3,
      Regs(0x649568a6, 0xc5cb48ba, 0x2ead5672, 0x1caa41b1, 0x8dd8c660));
    OneStep(Right, m, 37, 14, 6, 0x00000018, 0x6d703ef3,
      Regs(0x8dd8c660, 0x05286dfb, 0xc5cb48ba, 0xb559c8ba, 0x1caa41b1));
    OneStep(Right, m, 38, 6, 6, 0, 0x6d703ef3,
      Regs(0x1caa41b1, 0x88396dd2, 0x05286dfb, 0x2d22eb17, 0xb559c8ba));
    OneStep(Right, m, 39, 9, 14, 0, 0x6d703ef3,
      Regs(0xb559c8ba, 0x333f2212, 0x88396dd2, 0xa1b7ec14, 0x2d22eb17));
  }

  lemma RightTo48(m: seq<Word>)
    requires |m| == 16 && IsBlock(m)
    ensures Reached(Right, m, 48, Regs(0x69baff37, 0x65a60151, 0xc9b17f72, 0x59b28ddb, 0xb1f68d95))
  {
    hide Reached, Takes, Order, Shifts;
    RightTo40(m);
    RightTakes2();
    OneStep(Right, m, 40, 11, 12, 0, 0x6d703ef3,
      Regs(0x2d22eb17, 0xc699295b, 0x333f2212, 0xe5b74a20, 0xa1b7ec14));
    OneStep(Right, m, 41, 8, 13, 0, 0x6d703ef3,
      Regs(0xa1b7ec14, 0xbfd68874, 0xc699295b, 0xfc8848cc, 0xe5b74a20));
    OneStep(Right, m, 42, 12, 5, 0, 0x6d703ef3,
      Regs(0xe5b74a20, 0xbddf3474, 0xbfd68874, 0x64a56f1a, 0xfc8848cc));
    OneStep(Right, m, 43, 2, 14, 0, 0x6d703ef3,
      Regs(0xfc8848cc, 0x8cbc87e9, 0xbddf3474, 0x5a21d2ff, 0x64a56f1a));
    OneStep(Right, m, 44, 10, 13, 0, 0x6d703ef3,
      Regs(0x64a56f1a, 0xcdda6ebf, 0x8cbc87e9, 0x7cd1d2f7, 0x5a21d2ff));
    OneStep(Right, m, 45, 0, 13, 0x80636261, 0x6d703ef3,
      Regs(0x5a21d2ff, 0x656c7da3, 0xcdda6ebf, 0xf21fa632, 0x7cd1d2f7));
    OneStep(Right, m, 46, 4, 7, 0, 0x6d703ef3,
      Regs(0x7cd1d2f7, 0x76d66ca3, 0x656c7da3, 0x69baff37, 0xf21fa632));
    OneStep(Right, m, 47, 13, 5, 0, 0x6d703ef3,
      Regs(0xf21fa632, 0xc9b17f72, 0x76d66ca3, 0xb1f68d95, 0x69baff37));
  }

  lemma RightTo56(m: seq<Word>)
    requires |m| == 16 && IsBlock(m)
    ensures Reached(Right, m, 56, Regs(0x30b1e709, 0xb43484f4, 0x5b99238d, 0x58e52773, 0x5611fbc9))
  {
    hide Reached, Takes, Order, Shifts;
    RightTo48(m);
    RightTakes3();
    OneStep(Right, m, 48, 8, 15, 0, 0x7a6d76e9,
      Regs(0x69baff37, 0x65a60151, 0xc9b17f72, 0x59b28ddb, 0xb1f68d95));
    OneStep(Right, m, 49, 6, 5, 0, 0x7a6d76e9,
      Regs(0xb1f68d95, 0x33f3ac81, 0x65a60151, 0xc5fdcb26, 0x59b28ddb));
    OneStep(Right, m, 50, 4, 8, 0, 0x7a6d76e9,
      Regs(0x59b28ddb, 0x9bfb827d, 0x33f3ac81, 0x98054596, 0xc5fdcb26));
    OneStep(Right, m, 51, 1, 11, 0, 0x7a6d76e9,
      Regs(0xc5fdcb26, 0xddc8130e, 0x9bfb827d, 0xceb204cf, 0x98054596));
    OneStep(Right, m, 52, 3, 14, 0, 0x7a6d76e9,
      Regs(0x98054596, 0xc24c2c79, 0xddc8130e, 0xee09f66f, 0xceb204cf));
    OneStep(Right, m, 53, 11, 14, 0, 0x7a6d76e9,
      Regs(0xceb204cf, 0xf255847e, 0xc24c2c79, 0x204c3b77, 0xee09f66f));
    OneStep(Right, m, 54, 15, 6, 0, 0x7a6d76e9,
      Regs(0xee09f66f, 0xdcd63949, 0xf255847e, 0x30b1e709, 0x204c3b77));
    OneStep(Right, m, 55, 0, 14, 0x80636261, 0x7a6d76e9,
      Regs(0x204c3b77, 0x5b99238d, 0xdcd63949, 0x5611fbc9, 0x30b1e709));
  }

  lemma RightTo64(m: seq<Word>)
    requires |m| == 16 && IsBlock(m)
    ensures Reached(Right, m, 64, Regs(0xec68bac6, 0x5dca4d12, 0xa625f112, 0xd34c985d, 0xdfe5b6b1))
  {
    hide Reached, Takes, Order, Shifts;
    RightTo56(m);
    RightTakes3();
    OneStep(Right, m, 56, 5, 6, 0, 0x7a6d76e9,
      Regs(0x30b1e709, 0xb43484f4, 0x5b99238d, 0x58e52773, 0x5611fbc9));
    OneStep(Right, m, 57, 12, 9, 0, 0x7a6d76e9,
      Regs(0x5611fbc9, 0x52325a09, 0xb43484f4, 0x648e356e, 0x58e52773));
    OneStep(Right, m, 58, 2, 12, 0, 0x7a6d76e9,
      Regs(0x58e52773, 0xd015577d, 0x52325a09, 0xd213d2d0, 0x648e356e));
    OneStep(Right, m, 59, 13, 9, 0, 0x7a6d76e9,
      Regs(0x648e356e, 0xbb9c87c4, 0xd015577d, 0xc9682548, 0xd213d2d0));
    OneStep(Right, m, 60, 9, 12, 0, 0x7a6d76e9,
      Regs(0xd213d2d0, 0xb1bb1a2e, 0xbb9c87c4, 0x555df740, 0xc9682548));
    OneStep(Right, m, 61, 7, 5, 0, 0x7a6d76e9,
      Regs(0xc9682548, 0xac77f96d, 0xb1bb1a2e, 0x721f12ee, 0x555df740));
    OneStep(Right, m, 62, 10, 15, 0, 0x7a6d76e9,
      Regs(0x555df740, 0x1774d326, 0xac77f96d, 0xec68bac6, 0x721f12ee));
    OneStep(Right, m, 63, 14, 8, 0x00000018, 0x7a6d76e9,
      Regs(0x721f12ee, 0xa625f112, 0x1774d326, 0xdfe5b6b1, 0xec68bac6));
  }

  lemma RightTo72(m: seq<Word>)
    requires |m| == 16 && IsBlock(m)
    ensures Reached(Right, m, 72, Regs(0x6c94a6fd, 0x4f5ca4a5, 0x27754f3a, 0x4d697f76, 0x5d1f17ed))
  {
    hide Reached, Takes, Order, Shifts;
    RightTo64(m);
    RightTakes4();
    OneStep(Right, m, 64, 12, 8, 0, 0,
      Regs(0xec68bac6, 0x5dca4d12, 0xa625f112, 0xd34c985d, 0xdfe5b6b1));
    OneStep(Right, m, 65, 15, 5, 0, 0,
      Regs(0xdfe5b6b1, 0xebc4d9c6, 0x5dca4d12, 0x97c44a98, 0xd34c985d));
    OneStep(Right, m, 66, 10, 12, 0, 0,
      Regs(0xd34c985d, 0x095f37fd, 0xebc4d9c6, 0x29344977, 0x97c44a98));
    OneStep(Right, m, 67, 4, 9, 0, 0,
      Regs(0x97c44a98, 0x5bbee487, 0x095f37fd, 0x13671baf, 0x29344977));
    OneStep(Right, m, 68, 1, 12, 0, 0,
      Regs(0x29344977, 0xbf5b2529, 0x5bbee487, 0x7cdff425, 0x13671baf));
    OneStep(Right, m, 69, 5, 5, 0, 0,
      Regs(0x13671baf, 0xfb5747c5, 0xbf5b2529, 0xfb921d6e, 0x7cdff425));
    OneStep(Right, m, 70, 8, 14, 0, 0,
      Regs(0x7cdff425, 0xdd935a5f, 0xfb5747c5, 0x6c94a6fd, 0xfb921d6e));
    OneStep(Right, m, 71, 7, 6, 0, 0,
      Regs(0xfb921d6e, 0x27754f3a, 0xdd935a5f, 0x5d1f17ed, 0x6c94a6fd));
  }

  lemma RightTo80(m: seq<Word>)
    requires |m| == 16 && IsBlock(m)
    ensures Reached(Right, m, 80, Regs(0x81d4727d, 0x5fccbade, 0xbf627814, 0xfc0e2b04, 0x739c4c7a))
  {
    hide Reached, Takes, Order, Shifts;
    RightTo72(m);
    RightTakes4();
    OneStep(Right, m, 72, 6, 8, 0, 0,
      Regs(0x6c94a6fd, 0x4f5ca4a5, 0x27754f3a, 0x4d697f76, 0x5d1f17ed));
    OneStep(Right, m, 73, 2, 13, 0, 0,
      Regs(0x5d1f17ed, 0x325afe7e, 0x4f5ca4a5, 0xd53ce89d, 0x4d697f76));
    OneStep(Right, m, 74, 13, 6, 0, 0,
      Regs(0x4d697f76, 0x86afe021, 0x325afe7e, 0x7292953d, 0xd53ce89d));
    OneStep(Right, m, 75, 14, 5, 0x00000018, 0,
      Regs(0xd53ce89d, 0xc97f9ea1, 0x86afe021, 0x6bf9f8c9, 0x7292953d));
    OneStep(Right, m, 76, 0, 15, 0x80636261, 0,
      Regs(0x7292953d, 0x9f60751c, 0xc97f9ea1, 0xbf80861a, 0x6bf9f8c9));
    OneStep(Right, m, 77, 3, 13, 0, 0,
      Regs(0x6bf9f8c9, 0x1e9ce713, 0x9f60751c, 0xfe7a8725, 0xbf80861a));
    OneStep(Right, m, 78, 9, 11, 0, 0,
      Regs(0xbf80861a, 0xc13f038a, 0x1e9ce713, 0x81d4727d, 0xfe7a8725));
    OneStep(Right, m, 79, 11, 11, 0, 0,
      Regs(0xfe7a8725, 0xbf627814, 0xc13f038a, 0x739c4c7a, 0x81d4727d));
  }

  lemma Compressed(m: seq<Word>)
    requires |m| == 16 && IsBlock(m)
    ensures Compress(INITIAL, m) == Regs(0xf708b28e, 0x7a985de0, 0x8e4a049b, 0x87b0c698, 0xfc0b5af1)
  {
    hide Steps;
    LeftTo80(m);
    RightTo80(m);
  }

  // ---------------------------------------------------------------------------------
  // The message

  lemma LengthOctets(n: nat)
    requires n == 24
    ensures LengthLE(n) == [0x18, 0, 0, 0, 0, 0, 0, 0]
  {
    hide OctetOf, OctetsLE;
    OctetsOf0And24();
    FirstOctet(n, 7);
    FirstOctet(n / 256, 6);
    FirstOctet(0, 5);
    FirstOctet(0, 4);
    FirstOctet(0, 3);
    FirstOctet(0, 2);
    FirstOctet(0, 1);
    FirstOctet(0, 0);
  }

  lemma {:induction false} FirstOctet(n: nat, k: nat)
    ensures OctetsLE(n, k + 1) == [OctetOf(n)] + OctetsLE(n / 256, k) && OctetsLE(n, 0) == []
  {
    hide OctetOf;
  }

  lemma {:induction false} PaddedBlock(p: seq<Octet>)
    requires p == Padded(LengthLE, [0x61, 0x62, 0x63])
    ensures |p| == 64 && IsBlock(WordsLE(p))
  {
    hide WordsLE, WordLE, OctetsLE, Zeros, IsBlock;
    LengthOctets(24);
    BlockWords(p, Zeros(52));
  }

  lemma {:induction false} BlockWords(p: seq<Octet>, z: seq<Octet>)
    requires |z| == 52 && forall i :: 0 <= i < 52 ==> z[i] == 0
    requires p == [0x61, 0x62, 0x63] + ([0x80] + z) + [0x18, 0, 0, 0, 0, 0, 0, 0]
    ensures |p| == 64 && IsBlock(WordsLE(p))
  {
    hide WordsLE, WordLE;
    FewWords();
    forall i: nat | i < 16 ensures WordsLE(p)[i] == if i == 0 then 0x80636261 else if i == 14 then 0x18 else 0 {
      WordsLEAt(p, i);
      if i == 0 {
        assert p[0..4] == [0x61, 0x62, 0x63, 0x80];
      } else if i == 14 {
        assert p[56] == 0x18 && p[57] == 0 && p[58] == 0 && p[59] == 0;
        assert p[56..60] == [0x18, 0, 0, 0];
      } else {
        assert p[4 * i..4 * i + 4] == [0, 0, 0, 0];
      }
    }
  }

  lemma FewWords()
    ensures WordLE([0x61, 0x62, 0x63, 0x80]) == 0x80636261 && WordLE([0, 0, 0, 0]) == 0
    ensures WordLE([0x18, 0, 0, 0]) == 0x18
  {
  }

  /** The digest of "abc". */
  lemma AbcDigest()
    ensures Digest([0x61, 0x62, 0x63]) ==
      [0x8e, 0xb2, 0x08, 0xf7, 0xe0, 0x5d, 0x98, 0x7a, 0x9b, 0x04, 0x4a, 0x8e, 0x98, 0xc6, 0xb0, 0x87,
       0xf1, 0x5a, 0x0b, 0xfc]
  {
    hide Padded, WordsLE, IsBlock, Compress, Output, Absorb;
    var p := Padded(LengthLE, [0x61, 0x62, 0x63]);
    PaddedBlock(p);
    Compressed(WordsLE(p));
    OneBlock(p);
    OutputOctets();
  }

  lemma {:induction false} OneBlock(p: seq<Octet>)
    requires |p| == 64
    ensures Absorb(64, CompressBlock, INITIAL, p) == Compress(INITIAL, WordsLE(p))
  {
    hide Compress, WordsLE;
    assert p[..64] == p && p[64..] == [];
  }

  lemma OutputOctets()
    ensures Output(Regs(0xf708b28e, 0x7a985de0, 0x8e4a049b, 0x87b0c698, 0xfc0b5af1)) ==
      [0x8e, 0xb2, 0x08, 0xf7, 0xe0, 0x5d, 0x98, 0x7a, 0x9b, 0x04, 0x4a, 0x8e, 0x98, 0xc6, 0xb0, 0x87,
       0xf1, 0x5a, 0x0b, 0xfc]
  {
  }
}
