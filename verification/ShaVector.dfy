/** The published test vector of SHA-256 for the message "abc": the definitions that the unrolled code is compared
    with are the standard's, constant for constant. */
module ShaVector {
  import opened Blocks
  import opened Counters
  import opened Sha256
  import opened Streaming
  import opened Words

  /** The message block. */
  predicate IsBlock(m: seq<Word>) {
    m == [0x61626380, 0, 0, 0, 0, 0, 0, 0, 0, 0, 0, 0, 0, 0, 0, 0x18]
  }

  /** The registers after `t` steps. */
  predicate Reached(m: seq<Word>, t: nat, r: Regs)
    requires |m| == 16 && t <= 64
  {
    Steps(INITIAL, m, t) == r
  }

  lemma OneWord(m: seq<Word>, t: nat)
    requires |m| == 16 && 16 <= t
    ensures W(m, t) == Add(Add(Add(StdSigma1(W(m, t - 2)), W(m, t - 7)), StdSigma0(W(m, t - 15))), W(m, t - 16))
  {
  }

  lemma {:induction false} OneStep(m: seq<Word>, t: nat, k: Word, w: Word, r: Regs)
    requires |m| == 16 && t < 64 && Reached(m, t, r) && K(t) == k && W(m, t) == w
    ensures Reached(m, t + 1, Step(r, k, w))
  {
    hide W, K, Step;
  }

  // ---------------------------------------------------------------------------------
  // The message schedule

  lemma Schedule0(m: seq<Word>)
    requires |m| == 16 && IsBlock(m)
    ensures W(m, 0) == 0x61626380 && W(m, 1) == 0
    ensures W(m, 2) == 0 && W(m, 3) == 0
    ensures W(m, 4) == 0 && W(m, 5) == 0
    ensures W(m, 6) == 0 && W(m, 7) == 0
  {
  }

  lemma Schedule1(m: seq<Word>)
    requires |m| == 16 && IsBlock(m)
    ensures W(m, 8) == 0 && W(m, 9) == 0
    ensures W(m, 10) == 0 && W(m, 11) == 0
    ensures W(m, 12) == 0 && W(m, 13) == 0
    ensures W(m, 14) == 0 && W(m, 15) == 0x00000018
  {
  }

  lemma {:induction false} Schedule2(m: seq<Word>)
    requires |m| == 16 && IsBlock(m)
    ensures W(m, 16) == 0x61626380 && W(m, 17) == 0x000f0000
    ensures W(m, 18) == 0x7da86405 && W(m, 19) == 0x600003c6
    ensures W(m, 20) == 0x3e9d7b78 && W(m, 21) == 0x0183fc00
    ensures W(m, 22) == 0x12dcbfdb && W(m, 23) == 0xe2e2c38e
  {
    hide W;
    Schedule0(m);
    Schedule1(m);
    OneWord(m, 16);
    OneWord(m, 17);
    OneWord(m, 18);
    OneWord(m, 19);
    OneWord(m, 20);
    OneWord(m, 21);
    OneWord(m, 22);
    OneWord(m, 23);
  }

  lemma {:induction false} Schedule3(m: seq<Word>)
    requires |m| == 16 && IsBlock(m)
    ensures W(m, 24) == 0xc8215c1a && W(m, 25) == 0xb73679a2
    ensures W(m, 26) == 0xe5bc3909 && W(m, 27) == 0x32663c5b
    ensures W(m, 28) == 0x9d209d67 && W(m, 29) == 0xec8726cb
    ensures W(m, 30) == 0x702138a4 && W(m, 31) == 0xd3b7973b
  {
    hide W;
    Schedule1(m);
    Schedule2(m);
    OneWord(m, 24);
    OneWord(m, 25);
    OneWord(m, 26);
    OneWord(m, 27);
    OneWord(m, 28);
    OneWord(m, 29);
    OneWord(m, 30);
    OneWord(m, 31);
  }

  lemma {:induction false} Schedule4(m: seq<Word>)
    requires |m| == 16 && IsBlock(m)
    ensures W(m, 32) == 0x93f5997f && W(m, 33) == 0x3b68ba73
    ensures W(m, 34) == 0xaff4ffc1 && W(m, 35) == 0xf10a5c62
    ensures W(m, 36) == 0x0a8b3996 && W(m, 37) == 0x72af830a
    ensures W(m, 38) == 0x9409e33e && W(m, 39) == 0x24641522
  {
    hide W;
    Schedule2(m);
    Schedule3(m);
    OneWord(m, 32);
    OneWord(m, 33);
    OneWord(m, 34);
    OneWord(m, 35);
    OneWord(m, 36);
    OneWord(m, 37);
    OneWord(m, 38);
    OneWord(m, 39);
  }

  lemma {:induction false} Schedule5(m: seq<Word>)
    requires |m| == 16 && IsBlock(m)
    ensures W(m, 40) == 0x9f47bf94 && W(m, 41) == 0xf0a64f5a
    ensures W(m, 42) == 0x3e246a79 && W(m, 43) == 0x27333ba3
    ensures W(m, 44) == 0x0c4763f2 && W(m, 45) == 0x840abf27
    ensures W(m, 46) == 0x7a290d5d && W(m, 47) == 0x065c43da
  {
    hide W;
    Schedule3(m);
    Schedule4(m);
    OneWord(m, 40);
    OneWord(m, 41);
    OneWord(m, 42);
    OneWord(m, 43);
    OneWord(m, 44);
    OneWord(m, 45);
    OneWord(m, 46);
    OneWord(m, 47);
  }

  lemma {:induction false} Schedule6(m: seq<Word>)
    requires |m| == 16 && IsBlock(m)
    ensures W(m, 48) == 0xfb3e89cb && W(m, 49) == 0xcc7617db
    ensures W(m, 50) == 0xb9e66c34 && W(m, 51) == 0xa9993667
    ensures W(m, 52) == 0x84badedd && W(m, 53) == 0xc21462bc
    ensures W(m, 54) == 0x1487472c && W(m, 55) == 0xb20f7a99
  {
    hide W;
    Schedule4(m);
    Schedule5(m);
    OneWord(m, 48);
    OneWord(m, 49);
    OneWord(m, 50);
    OneWord(m, 51);
    OneWord(m, 52);
    OneWord(m, 53);
    OneWord(m, 54);
    OneWord(m, 55);
  }

  lemma {:induction false} Schedule7(m: seq<Word>)
    requires |m| == 16 && IsBlock(m)
    ensures W(m, 56) == 0xef57b9cd && W(m, 57) == 0xebe6b238
    ensures W(m, 58) == 0x9fe3095e && W(m, 59) == 0x78bc8d4b
    ensures W(m, 60) == 0xa43fcf15 && W(m, 61) == 0x668b2ff8
    ensures W(m, 62) == 0xeeaba2cc && W(m, 63) == 0x12b1edeb
  {
    hide W;
    Schedule5(m);
    Schedule6(m);
    OneWord(m, 56);
    OneWord(m, 57);
    OneWord(m, 58);
    OneWord(m, 59);
    OneWord(m, 60);
    OneWord(m, 61);
    OneWord(m, 62);
    OneWord(m, 63);
  }

  // ---------------------------------------------------------------------------------
  // The steps

  lemma Constants0()
    ensures K(0) == 0x428a2f98 && K(1) == 0x71374491 && K(2) == 0xb5c0fbcf && K(3) == 0xe9b5dba5
    ensures K(4) == 0x3956c25b && K(5) == 0x59f111f1 && K(6) == 0x923f82a4 && K(7) == 0xab1c5ed5
  {
  }

  lemma Constants1()
    ensures K(8) == 0xd807aa98 && K(9) == 0x12835b01 && K(10) == 0x243185be && K(11) == 0x550c7dc3
    ensures K(12) == 0x72be5d74 && K(13) == 0x80deb1fe && K(14) == 0x9bdc06a7 && K(15) == 0xc19bf174
  {
  }

  lemma Constants2()
    ensures K(16) == 0xe49b69c1 && K(17) == 0xefbe4786 && K(18) == 0x0fc19dc6 && K(19) == 0x240ca1cc
    ensures K(20) == 0x2de92c6f && K(21) == 0x4a7484aa && K(22) == 0x5cb0a9dc && K(23) == 0x76f988da
  {
  }

  lemma Constants3()
    ensures K(24) == 0x983e5152 && K(25) == 0xa831c66d && K(26) == 0xb00327c8 && K(27) == 0xbf597fc7
    ensures K(28) == 0xc6e00bf3 && K(29) == 0xd5a79147 && K(30) == 0x06ca6351 && K(31) == 0x14292967
  {
  }

  lemma Constants4()
    ensures K(32) == 0x27b70a85 && K(33) == 0x2e1b2138 && K(34) == 0x4d2c6dfc && K(35) == 0x53380d13
    ensures K(36) == 0x650a7354 && K(37) == 0x766a0abb && K(38) == 0x81c2c92e && K(39) == 0x92722c85
  {
  }

  lemma Constants5()
    ensures K(40) == 0xa2bfe8a1 && K(41) == 0xa81a664b && K(42) == 0xc24b8b70 && K(43) == 0xc76c51a3
    ensures K(44) == 0xd192e819 && K(45) == 0xd6990624 && K(46) == 0xf40e3585 && K(47) == 0x106aa070
  {
  }

  lemma Constants6()
    ensures K(48) == 0x19a4c116 && K(49) == 0x1e376c08 && K(50) == 0x2748774c && K(51) == 0x34b0bcb5
    ensures K(52) == 0x391c0cb3 && K(53) == 0x4ed8aa4a && K(54) == 0x5b9cca4f && K(55) == 0x682e6ff3
  {
  }

  lemma Constants7()
    ensures K(56) == 0x748f82ee && K(57) == 0x78a5636f && K(58) == 0x84c87814 && K(59) == 0x8cc70208
    ensures K(60) == 0x90befffa && K(61) == 0xa4506ceb && K(62) == 0xbef9a3f7 && K(63) == 0xc67178f2
  {
  }

  lemma Start(m: seq<Word>)
    requires |m| == 16
    ensures Reached(m, 0, INITIAL)
  {
  }

  lemma Rounds0(m: seq<Word>)
    requires |m| == 16 && IsBlock(m)
    ensures Reached(m, 4,
      Regs(0xd550f666, 0xc8c347a7, 0x5a6ad9ad, 0x5d6aebcd, 0x24e00850, 0xf92939eb, 0x78ce7989, 0xfa2a4622))
  {
    hide W, K, Reached;
    Start(m);
    Schedule0(m);
    Constants0();
    OneStep(m, 0, 0x428a2f98, 0x61626380,
      Regs(0x6a09e667, 0xbb67ae85, 0x3c6ef372, 0xa54ff53a, 0x510e527f, 0x9b05688c, 0x1f83d9ab, 0x5be0cd19));
    OneStep(m, 1, 0x71374491, 0,
      Regs(0x5d6aebcd, 0x6a09e667, 0xbb67ae85, 0x3c6ef372, 0xfa2a4622, 0x510e527f, 0x9b05688c, 0x1f83d9ab));
    OneStep(m, 2, 0xb5c0fbcf, 0,
      Regs(0x5a6ad9ad, 0x5d6aebcd, 0x6a09e667, 0xbb67ae85, 0x78ce7989, 0xfa2a4622, 0x510e527f, 0x9b05688c));
    OneStep(m, 3, 0xe9b5dba5, 0,
      Regs(0xc8c347a7, 0x5a6ad9ad, 0x5d6aebcd, 0x6a09e667, 0xf92939eb, 0x78ce7989, 0xfa2a4622, 0x510e527f));
  }

  lemma Rounds1(m: seq<Word>)
    requires |m| == 16 && IsBlock(m)
    ensures Reached(m, 8,
      Regs(0x85a07b5f, 0xe5030380, 0x2b4209f5, 0x04409a6a, 0x0c657a79, 0x9b27a401, 0x714260ad, 0x43ada245))
  {
    hide W, K, Reached;
    Rounds0(m);
    Schedule0(m);
    Constants0();
    OneStep(m, 4, 0x3956c25b, 0,
      Regs(0xd550f666, 0xc8c347a7, 0x5a6ad9ad, 0x5d6aebcd, 0x24e00850, 0xf92939eb, 0x78ce7989, 0xfa2a4622));
    OneStep(m, 5, 0x59f111f1, 0,
      Regs(0x04409a6a, 0xd550f666, 0xc8c347a7, 0x5a6ad9ad, 0x43ada245, 0x24e00850, 0xf92939eb, 0x78ce7989));
    OneStep(m, 6, 0x923f82a4, 0,
      Regs(0x2b4209f5, 0x04409a6a, 0xd550f666, 0xc8c347a7, 0x714260ad, 0x43ada245, 0x24e00850, 0xf92939eb));
    OneStep(m, 7, 0xab1c5ed5, 0,
      Regs(0xe5030380, 0x2b4209f5, 0x04409a6a, 0xd550f666, 0x9b27a401, 0x714260ad, 0x43ada245, 0x24e00850));
  }

  lemma Rounds2(m: seq<Word>)
    requires |m| == 16 && IsBlock(m)
    ensures Reached(m, 12,
      Regs(0xf71fc5a9, 0x4798a3f4, 0x8c87346b, 0x8e04ecb9, 0x816fd6e9, 0x436b23e8, 0x1cc92596, 0x32ca2d8c))
  {
    hide W, K, Reached;
    Rounds1(m);
    Schedule1(m);
    Constants1();
    OneStep(m, 8, 0xd807aa98, 0,
      Regs(0x85a07b5f, 0xe5030380, 0x2b4209f5, 0x04409a6a, 0x0c657a79, 0x9b27a401, 0x714260ad, 0x43ada245));
    OneStep(m, 9, 0x12835b01, 0,
      Regs(0x8e04ecb9, 0x85a07b5f, 0xe5030380, 0x2b4209f5, 0x32ca2d8c, 0x0c657a79, 0x9b27a401, 0x714260ad));
    OneStep(m, 10, 0x243185be, 0,
      Regs(0x8c87346b, 0x8e04ecb9, 0x85a07b5f, 0xe5030380, 0x1cc92596, 0x32ca2d8c, 0x0c657a79, 0x9b27a401));
    OneStep(m, 11, 0x550c7dc3, 0,
      Regs(0x4798a3f4, 0x8c87346b, 0x8e04ecb9, 0x85a07b5f, 0x436b23e8, 0x1cc92596, 0x32ca2d8c, 0x0c657a79));
  }

  lemma Rounds3(m: seq<Word>)
    requires |m| == 16 && IsBlock(m)
    ensures Reached(m, 16,
      Regs(0xb0fa238e, 0xc0645fde, 0xd932eb16, 0x87912990, 0x07590dcd, 0x0b92f20c, 0x745a48de, 0x1e578218))
  {
    hide W, K, Reached;
    Rounds2(m);
    Schedule1(m);
    Constants1();
    OneStep(m, 12, 0x72be5d74, 0,
      Regs(0xf71fc5a9, 0x4798a3f4, 0x8c87346b, 0x8e04ecb9, 0x816fd6e9, 0x436b23e8, 0x1cc92596, 0x32ca2d8c));
    OneStep(m, 13, 0x80deb1fe, 0,
      Regs(0x87912990, 0xf71fc5a9, 0x4798a3f4, 0x8c87346b, 0x1e578218, 0x816fd6e9, 0x436b23e8, 0x1cc92596));
    OneStep(m, 14, 0x9bdc06a7, 0,
      Regs(0xd932eb16, 0x87912990, 0xf71fc5a9, 0x4798a3f4, 0x745a48de, 0x1e578218, 0x816fd6e9, 0x436b23e8));
    OneStep(m, 15, 0xc19bf174, 0x00000018,
      Regs(0xc0645fde, 0xd932eb16, 0x87912990, 0xf71fc5a9, 0x0b92f20c, 0x745a48de, 0x1e578218, 0x816fd6e9));
  }

  lemma Rounds4(m: seq<Word>)
    requires |m| == 16 && IsBlock(m)
    ensures Reached(m, 20,
      Regs(0xe1f20c33, 0xfe777bbf, 0xc2fbd9d1, 0x21da9a9b, 0xb0638179, 0xcc899961, 0x846ee454, 0x8034229c))
  {
    hide W, K, Reached;
    Rounds3(m);
    Schedule2(m);
    Constants2();
    OneStep(m, 16, 0xe49b69c1, 0x61626380,
      Regs(0xb0fa238e, 0xc0645fde, 0xd932eb16, 0x87912990, 0x07590dcd, 0x0b92f20c, 0x745a48de, 0x1e578218));
    OneStep(m, 17, 0xefbe4786, 0x000f0000,
      Regs(0x21da9a9b, 0xb0fa238e, 0xc0645fde, 0xd932eb16, 0x8034229c, 0x07590dcd, 0x0b92f20c, 0x745a48de));
    OneStep(m, 18, 0x0fc19dc6, 0x7da86405,
      Regs(0xc2fbd9d1, 0x21da9a9b, 0xb0fa238e, 0xc0645fde, 0x846ee454, 0x8034229c, 0x07590dcd, 0x0b92f20c));
    OneStep(m, 19, 0x240ca1cc, 0x600003c6,
      Regs(0xfe777bbf, 0xc2fbd9d1, 0x21da9a9b, 0xb0fa238e, 0xcc899961, 0x846ee454, 0x8034229c, 0x07590dcd));
  }

  lemma Rounds5(m: seq<Word>)
    requires |m| == 16 && IsBlock(m)
    ensures Reached(m, 24,
      Regs(0xc5d53d8d, 0xa7a3623f, 0xc2606d6d, 0x9dc68b63, 0xaa47c347, 0x49f5114a, 0xe1257970, 0x8ada8930))
  {
    hide W, K, Reached;
    Rounds4(m);
    Schedule2(m);
    Constants2();
    OneStep(m, 20, 0x2de92c6f, 0x3e9d7b78,
      Regs(0xe1f20c33, 0xfe777bbf, 0xc2fbd9d1, 0x21da9a9b, 0xb0638179, 0xcc899961, 0x846ee454, 0x8034229c));
    OneStep(m, 21, 0x4a7484aa, 0x0183fc00,
      Regs(0x9dc68b63, 0xe1f20c33, 0xfe777bbf, 0xc2fbd9d1, 0x8ada8930, 0xb0638179, 0xcc899961, 0x846ee454));
    OneStep(m, 22, 0x5cb0a9dc, 0x12dcbfdb,
      Regs(0xc2606d6d, 0x9dc68b63, 0xe1f20c33, 0xfe777bbf, 0xe1257970, 0x8ada8930, 0xb0638179, 0xcc899961));
    OneStep(m, 23, 0x76f988da, 0xe2e2c38e,
      Regs(0xa7a3623f, 0xc2606d6d, 0x9dc68b63, 0xe1f20c33, 0x49f5114a, 0xe1257970, 0x8ada8930, 0xb0638179));
  }

  lemma Rounds6(m: seq<Word>)
    requires |m| == 16 && IsBlock(m)
    ensures Reached(m, 28,
      Regs(0x77d37528, 0xb62ec4bc, 0xcde8037d, 0x1c2c2838, 0xedffbff8, 0xc74c6516, 0x14383d8e, 0x2823ef91))
  {
    hide W, K, Reached;
    Rounds5(m);
    Schedule3(m);
    Constants3();
    OneStep(m, 24, 0x983e5152, 0xc8215c1a,
      Regs(0xc5d53d8d, 0xa7a3623f, 0xc2606d6d, 0x9dc68b63, 0xaa47c347, 0x49f5114a, 0xe1257970, 0x8ada8930));
    OneStep(m, 25, 0xa831c66d, 0xb73679a2,
      Regs(0x1c2c2838, 0xc5d53d8d, 0xa7a3623f, 0xc2606d6d, 0x2823ef91, 0xaa47c347, 0x49f5114a, 0xe1257970));
    OneStep(m, 26, 0xb00327c8, 0xe5bc3909,
      Regs(0xcde8037d, 0x1c2c2838, 0xc5d53d8d, 0xa7a3623f, 0x14383d8e, 0x2823ef91, 0xaa47c347, 0x49f5114a));
    OneStep(m, 27, 0xbf597fc7, 0x32663c5b,
      Regs(0xb62ec4bc, 0xcde8037d, 0x1c2c2838, 0xc5d53d8d, 0xc74c6516, 0x14383d8e, 0x2823ef91, 0xaa47c347));
  }

  lemma Rounds7(m: seq<Word>)
    requires |m| == 16 && IsBlock(m)
    ensures Reached(m, 32,
      Regs(0x73b33bf5, 0xea992a22, 0xa0060b30, 0x363482c9, 0xba591112, 0x0109ab3a, 0xade79437, 0x6112a3b7))
  {
    hide W, K, Reached;
    Rounds6(m);
    Schedule3(m);
    Constants3();
    OneStep(m, 28, 0xc6e00bf3, 0x9d209d67,
      Regs(0x77d37528, 0xb62ec4bc, 0xcde8037d, 0x1c2c2838, 0xedffbff8, 0xc74c6516, 0x14383d8e, 0x2823ef91));
    OneStep(m, 29, 0xd5a79147, 0xec8726cb,
      Regs(0x363482c9, 0x77d37528, 0xb62ec4bc, 0xcde8037d, 0x6112a3b7, 0xedffbff8, 0xc74c6516, 0x14383d8e));
    OneStep(m, 30, 0x06ca6351, 0x702138a4,
      Regs(0xa0060b30, 0x363482c9, 0x77d37528, 0xb62ec4bc, 0xade79437, 0x6112a3b7, 0xedffbff8, 0xc74c6516));
    OneStep(m, 31, 0x14292967, 0xd3b7973b,
      Regs(0xea992a22, 0xa0060b30, 0x363482c9, 0x77d37528, 0x0109ab3a, 0xade79437, 0x6112a3b7, 0xedffbff8));
  }

  lemma Rounds8(m: seq<Word>)
    requires |m| == 16 && IsBlock(m)
    ensures Reached(m, 36,
      Regs(0x65a0cfe4, 0xa9a7738c, 0xfe604df5, 0x98e12507, 0xf4b002d6, 0x085f3833, 0x59249dd3, 0x9cd9f5f6))
  {
    hide W, K, Reached;
    Rounds7(m);
    Schedule4(m);
    Constants4();
    OneStep(m, 32, 0x27b70a85, 0x93f5997f,
      Regs(0x73b33bf5, 0xea992a22, 0xa0060b30, 0x363482c9, 0xba591112, 0x0109ab3a, 0xade79437, 0x6112a3b7));
    OneStep(m, 33, 0x2e1b2138, 0x3b68ba73,
      Regs(0x98e12507, 0x73b33bf5, 0xea992a22, 0xa0060b30, 0x9cd9f5f6, 0xba591112, 0x0109ab3a, 0xade79437));
    OneStep(m, 34, 0x4d2c6dfc, 0xaff4ffc1,
      Regs(0xfe604df5, 0x98e12507, 0x73b33bf5, 0xea992a22, 0x59249dd3, 0x9cd9f5f6, 0xba591112, 0x0109ab3a));
    OneStep(m, 35, 0x53380d13, 0xf10a5c62,
      Regs(0xa9a7738c, 0xfe604df5, 0x98e12507, 0x73b33bf5, 0x085f3833, 0x59249dd3, 0x9cd9f5f6, 0xba591112));
  }

  lemma Rounds9(m: seq<Word>)
    requires |m| == 16 && IsBlock(m)
    ensures Reached(m, 40,
      Regs(0x79ea687a, 0x6dc57a8a, 0x34df1604, 0x41a65cb1, 0x1efbc0a0, 0xf0781bc8, 0xa507a53d, 0x0772a26b))
  {
    hide W, K, Reached;
    Rounds8(m);
    Schedule4(m);
    Constants4();
    OneStep(m, 36, 0x650a7354, 0x0a8b3996,
      Regs(0x65a0cfe4, 0xa9a7738c, 0xfe604df5, 0x98e12507, 0xf4b002d6, 0x085f3833, 0x59249dd3, 0x9cd9f5f6));
    OneStep(m, 37, 0x766a0abb, 0x72af830a,
      Regs(0x41a65cb1, 0x65a0cfe4, 0xa9a7738c, 0xfe604df5, 0x0772a26b, 0xf4b002d6, 0x085f3833, 0x59249dd3));
    OneStep(m, 38, 0x81c2c92e, 0x9409e33e,
      Regs(0x34df1604, 0x41a65cb1, 0x65a0cfe4, 0xa9a7738c, 0xa507a53d, 0x0772a26b, 0xf4b002d6, 0x085f3833));
    OneStep(m, 39, 0x92722c85, 0x24641522,
      Regs(0x6dc57a8a, 0x34df1604, 0x41a65cb1, 0x65a0cfe4, 0xf0781bc8, 0xa507a53d, 0x0772a26b, 0xf4b002d6));
  }

  lemma Rounds10(m: seq<Word>)
    requires |m| == 16 && IsBlock(m)
    ensures Reached(m, 44,
      Regs(0x9d4baf93, 0x17aa0dfe, 0xdf46652f, 0xd6670766, 0xfda24c2e, 0xdecd4715, 0x838b2711, 0x26352d63))
  {
    hide W, K, Reached;
    Rounds9(m);
    Schedule5(m);
    Constants5();
    OneStep(m, 40, 0xa2bfe8a1, 0x9f47bf94,
      Regs(0x79ea687a, 0x6dc57a8a, 0x34df1604, 0x41a65cb1, 0x1efbc0a0, 0xf0781bc8, 0xa507a53d, 0x0772a26b));
    OneStep(m, 41, 0xa81a664b, 0xf0a64f5a,
      Regs(0xd6670766, 0x79ea687a, 0x6dc57a8a, 0x34df1604, 0x26352d63, 0x1efbc0a0, 0xf0781bc8, 0xa507a53d));
    OneStep(m, 42, 0xc24b8b70, 0x3e246a79,
      Regs(0xdf46652f, 0xd6670766, 0x79ea687a, 0x6dc57a8a, 0x838b2711, 0x26352d63, 0x1efbc0a0, 0xf0781bc8));
    OneStep(m, 43, 0xc76c51a3, 0x27333ba3,
      Regs(0x17aa0dfe, 0xdf46652f, 0xd6670766, 0x79ea687a, 0xdecd4715, 0x838b2711, 0x26352d63, 0x1efbc0a0));
  }

  lemma Rounds11(m: seq<Word>)
    requires |m| == 16 && IsBlock(m)
    ensures Reached(m, 48,
      Regs(0x4172328d, 0xa14c14b0, 0x72ab4b91, 0x26628815, 0xfecf0bc6, 0xd57b94a9, 0xb7755da1, 0xa80f11f0))
  {
    hide W, K, Reached;
    Rounds10(m);
    Schedule5(m);
    Constants5();
    OneStep(m, 44, 0xd192e819, 0x0c4763f2,
      Regs(0x9d4baf93, 0x17aa0dfe, 0xdf46652f, 0xd6670766, 0xfda24c2e, 0xdecd4715, 0x838b2711, 0x26352d63));
    OneStep(m, 45, 0xd6990624, 0x840abf27,
      Regs(0x26628815, 0x9d4baf93, 0x17aa0dfe, 0xdf46652f, 0xa80f11f0, 0xfda24c2e, 0xdecd4715, 0x838b2711));
    OneStep(m, 46, 0xf40e3585, 0x7a290d5d,
      Regs(0x72ab4b91, 0x26628815, 0x9d4baf93, 0x17aa0dfe, 0xb7755da1, 0xa80f11f0, 0xfda24c2e, 0xdecd4715));
    OneStep(m, 47, 0x106aa070, 0x065c43da,
      Regs(0xa14c14b0, 0x72ab4b91, 0x26628815, 0x9d4baf93, 0xd57b94a9, 0xb7755da1, 0xa80f11f0, 0xfda24c2e));
  }

  lemma Rounds12(m: seq<Word>)
    requires |m| == 16 && IsBlock(m)
    ensures Reached(m, 52,
      Regs(0x886e7a22, 0x7a0508a1, 0xf11bfaa8, 0x05757ceb, 0x49231c1e, 0x52f1ccf7, 0x6e5c390c, 0xbd714038))
  {
    hide W, K, Reached;
    Rounds11(m);
    Schedule6(m);
    Constants6();
    OneStep(m, 48, 0x19a4c116, 0xfb3e89cb,
      Regs(0x4172328d, 0xa14c14b0, 0x72ab4b91, 0x26628815, 0xfecf0bc6, 0xd57b94a9, 0xb7755da1, 0xa80f11f0));
    OneStep(m, 49, 0x1e376c08, 0xcc7617db,
      Regs(0x05757ceb, 0x4172328d, 0xa14c14b0, 0x72ab4b91, 0xbd714038, 0xfecf0bc6, 0xd57b94a9, 0xb7755da1));
    OneStep(m, 50, 0x2748774c, 0xb9e66c34,
      Regs(0xf11bfaa8, 0x05757ceb, 0x4172328d, 0xa14c14b0, 0x6e5c390c, 0xbd714038, 0xfecf0bc6, 0xd57b94a9));
    OneStep(m, 51, 0x34b0bcb5, 0xa9993667,
      Regs(0x7a0508a1, 0xf11bfaa8, 0x05757ceb, 0x4172328d, 0x52f1ccf7, 0x6e5c390c, 0xbd714038, 0xfecf0bc6));
  }

  lemma Rounds13(m: seq<Word>)
    requires |m| == 16 && IsBlock(m)
    ensures Reached(m, 56,
      Regs(0x38cc9913, 0x3ec45cdb, 0xf5702fdb, 0x101fd28f, 0x54cb266b, 0xe50e1b4f, 0x9f4787c3, 0x529e7d00))
  {
    hide W, K, Reached;
    Rounds12(m);
    Schedule6(m);
    Constants6();
    OneStep(m, 52, 0x391c0cb3, 0x84badedd,
      Regs(0x886e7a22, 0x7a0508a1, 0xf11bfaa8, 0x05757ceb, 0x49231c1e, 0x52f1ccf7, 0x6e5c390c, 0xbd714038));
    OneStep(m, 53, 0x4ed8aa4a, 0xc21462bc,
      Regs(0x101fd28f, 0x886e7a22, 0x7a0508a1, 0xf11bfaa8, 0x529e7d00, 0x49231c1e, 0x52f1ccf7, 0x6e5c390c));
    OneStep(m, 54, 0x5b9cca4f, 0x1487472c,
      Regs(0xf5702fdb, 0x101fd28f, 0x886e7a22, 0x7a0508a1, 0x9f4787c3, 0x529e7d00, 0x49231c1e, 0x52f1ccf7));
    OneStep(m, 55, 0x682e6ff3, 0xb20f7a99,
      Regs(0x3ec45cdb, 0xf5702fdb, 0x101fd28f, 0x886e7a22, 0xe50e1b4f, 0x9f4787c3, 0x529e7d00, 0x49231c1e));
  }

  lemma Rounds14(m: seq<Word>)
    requires |m| == 16 && IsBlock(m)
    ensures Reached(m, 60,
      Regs(0xb6ae8fff, 0xffb70472, 0xc062d46f, 0xfcd1887b, 0xb21bad3d, 0x6d83bfc6, 0x7e44008e, 0x9b5e906c))
  {
    hide W, K, Reached;
    Rounds13(m);
    Schedule7(m);
    Constants7();
    OneStep(m, 56, 0x748f82ee, 0xef57b9cd,
      Regs(0x38cc9913, 0x3ec45cdb, 0xf5702fdb, 0x101fd28f, 0x54cb266b, 0xe50e1b4f, 0x9f4787c3, 0x529e7d00));
    OneStep(m, 57, 0x78a5636f, 0xebe6b238,
      Regs(0xfcd1887b, 0x38cc9913, 0x3ec45cdb, 0xf5702fdb, 0x9b5e906c, 0x54cb266b, 0xe50e1b4f, 0x9f4787c3));
    OneStep(m, 58, 0x84c87814, 0x9fe3095e,
      Regs(0xc062d46f, 0xfcd1887b, 0x38cc9913, 0x3ec45cdb, 0x7e44008e, 0x9b5e906c, 0x54cb266b, 0xe50e1b4f));
    OneStep(m, 59, 0x8cc70208, 0x78bc8d4b,
      Regs(0xffb70472, 0xc062d46f, 0xfcd1887b, 0x38cc9913, 0x6d83bfc6, 0x7e44008e, 0x9b5e906c, 0x54cb266b));
  }

  lemma Rounds15(m: seq<Word>)
    requires |m| == 16 && IsBlock(m)
    ensures Reached(m, 64,
      Regs(0x506e3058, 0xd39a2165, 0x04d24d6c, 0xb85e2ce9, 0x5ef50f24, 0xfb121210, 0x948d25b6, 0x961f4894))
  {
    hide W, K, Reached;
    Rounds14(m);
    Schedule7(m);
    Constants7();
    OneStep(m, 60, 0x90befffa, 0xa43fcf15,
      Regs(0xb6ae8fff, 0xffb70472, 0xc062d46f, 0xfcd1887b, 0xb21bad3d, 0x6d83bfc6, 0x7e44008e, 0x9b5e906c));
    OneStep(m, 61, 0xa4506ceb, 0x668b2ff8,
      Regs(0xb85e2ce9, 0xb6ae8fff, 0xffb70472, 0xc062d46f, 0x961f4894, 0xb21bad3d, 0x6d83bfc6, 0x7e44008e));
    OneStep(m, 62, 0xbef9a3f7, 0xeeaba2cc,
      Regs(0x04d24d6c, 0xb85e2ce9, 0xb6ae8fff, 0xffb70472, 0x948d25b6, 0x961f4894, 0xb21bad3d, 0x6d83bfc6));
    OneStep(m, 63, 0xc67178f2, 0x12b1edeb,
      Regs(0xd39a2165, 0x04d24d6c, 0xb85e2ce9, 0xb6ae8fff, 0xfb121210, 0x948d25b6, 0x961f4894, 0xb21bad3d));
  }

  lemma Compressed(m: seq<Word>)
    requires |m| == 16 && IsBlock(m)
    ensures Compress(INITIAL, m) ==
      Regs(0xba7816bf, 0x8f01cfea, 0x414140de, 0x5dae2223, 0xb00361a3, 0x96177a9c, 0xb410ff61, 0xf20015ad)
  {
    hide Steps;
    Rounds15(m);
  }

  // ---------------------------------------------------------------------------------
  // The message

  lemma LengthOctets(n: nat)
    requires n == 24
    ensures LengthBE(n) == [0, 0, 0, 0, 0, 0, 0, 0x18]
  {
    hide OctetOf, OctetsBE;
    OctetsOf0And24();
    LastOctet(n, 7);
    LastOctet(n / 256, 6);
    LastOctet(0, 5);
    LastOctet(0, 4);
    LastOctet(0, 3);
    LastOctet(0, 2);
    LastOctet(0, 1);
    LastOctet(0, 0);
  }

  lemma {:induction false} LastOctet(n: nat, k: nat)
    ensures OctetsBE(n, k + 1) == OctetsBE(n / 256, k) + [OctetOf(n)] && OctetsBE(n, 0) == []
  {
    hide OctetOf;
  }

  lemma {:induction false} PaddedBlock(p: seq<Octet>)
    requires p == Padded(LengthBE, [0x61, 0x62, 0x63])
    ensures |p| == 64 && IsBlock(WordsBE(p))
  {
    hide WordsBE, WordBE, OctetsBE, Zeros, IsBlock;
    LengthOctets(24);
    BlockWords(p, Zeros(52));
  }

  lemma {:induction false} BlockWords(p: seq<Octet>, z: seq<Octet>)
    requires |z| == 52 && forall i :: 0 <= i < 52 ==> z[i] == 0
    requires p == [0x61, 0x62, 0x63] + ([0x80] + z) + [0, 0, 0, 0, 0, 0, 0, 0x18]
    ensures |p| == 64 && IsBlock(WordsBE(p))
  {
    hide WordsBE, WordBE;
    FewWords();
    forall i: nat | i < 16 ensures WordsBE(p)[i] == if i == 0 then 0x61626380 else if i == 15 then 0x18 else 0 {
      WordsBEAt(p, i);
      if i == 0 {
        assert p[0..4] == [0x61, 0x62, 0x63, 0x80];
      } else if i == 15 {
        assert p[60] == 0 && p[61] == 0 && p[62] == 0 && p[63] == 0x18;
        assert p[60..64] == [0, 0, 0, 0x18];
      } else {
        assert p[4 * i..4 * i + 4] == [0, 0, 0, 0];
      }
    }
  }

  lemma FewWords()
    ensures WordBE([0x61, 0x62, 0x63, 0x80]) == 0x61626380 && WordBE([0, 0, 0, 0]) == 0
    ensures WordBE([0, 0, 0, 0x18]) == 0x18
  {
  }

  /** The digest of "abc". */
  lemma AbcDigest()
    ensures Digest([0x61, 0x62, 0x63]) ==
      [0xba, 0x78, 0x16, 0xbf, 0x8f, 0x01, 0xcf, 0xea, 0x41, 0x41, 0x40, 0xde, 0x5d, 0xae, 0x22, 0x23,
       0xb0, 0x03, 0x61, 0xa3, 0x96, 0x17, 0x7a, 0x9c, 0xb4, 0x10, 0xff, 0x61, 0xf2, 0x00, 0x15, 0xad]
  {
    hide Padded, WordsBE, IsBlock, Compress, Output, Absorb;
    var p := Padded(LengthBE, [0x61, 0x62, 0x63]);
    PaddedBlock(p);
    Compressed(WordsBE(p));
    OneBlock(p);
    OutputOctets();
  }

  lemma {:induction false} OneBlock(p: seq<Octet>)
    requires |p| == 64
    ensures Absorb(64, CompressBlock, INITIAL, p) == Compress(INITIAL, WordsBE(p))
  {
    hide Compress, WordsBE;
    assert p[..64] == p && p[64..] == [];
  }

  lemma OutputOctets()
    ensures Output(
              Regs(0xba7816bf, 0x8f01cfea, 0x414140de, 0x5dae2223, 0xb00361a3, 0x96177a9c, 0xb410ff61, 0xf20015ad)) ==
      [0xba, 0x78, 0x16, 0xbf, 0x8f, 0x01, 0xcf, 0xea, 0x41, 0x41, 0x40, 0xde, 0x5d, 0xae, 0x22, 0x23,
       0xb0, 0x03, 0x61, 0xa3, 0x96, 0x17, 0x7a, 0x9c, 0xb4, 0x10, 0xff, 0x61, 0xf2, 0x00, 0x15, 0xad]
  {
  }
}
