/** Where the constants of SHA-256 and RIPEMD-160 come from: roots of the first primes. */
module RootConstants {
  import opened Words
  import Ripemd160
  import Sha256

  /** The first 32 bits of the fraction of the cube root of `p`, whose whole part is `a`. */
  predicate CubeFraction(p: nat, a: nat, k: Word) {
    var r := 0x1_0000_0000 * a + k as int;
    r * r * r <= p * 0x1_0000_0000_0000_0000_0000_0000 < (r + 1) * (r + 1) * (r + 1)
  }

  /** The same of the square root. */
  predicate SquareFraction(p: nat, a: nat, k: Word) {
    var r := 0x1_0000_0000 * a + k as int;
    r * r <= p * 0x1_0000_0000_0000_0000 < (r + 1) * (r + 1)
  }

  /** The whole part of 2^30 times the square root, or the cube root. */
  predicate Square30(p: nat, k: Word) {
    var r := k as int;
    r * r <= p * 0x1000_0000_0000_0000 < (r + 1) * (r + 1)
  }

  predicate Cube30(p: nat, k: Word) {
    var r := k as int;
    r * r * r <= p * 0x400_0000_0000_0000_0000_0000 < (r + 1) * (r + 1) * (r + 1)
  }

  /** Section 4.2.2 of FIPS 180-4: the cube roots of the first 64 primes, four at a time. */
  lemma CubeRoots0()
    ensures CubeFraction(2, 1, Sha256.K0()[0]) && CubeFraction(3, 1, Sha256.K0()[1])
    ensures CubeFraction(5, 1, Sha256.K0()[2]) && CubeFraction(7, 1, Sha256.K0()[3])
  {
  }

  lemma CubeRoots1()
    ensures CubeFraction(11, 2, Sha256.K0()[4]) && CubeFraction(13, 2, Sha256.K0()[5])
    ensures CubeFraction(17, 2, Sha256.K0()[6]) && CubeFraction(19, 2, Sha256.K0()[7])
  {
  }

  lemma CubeRoots2()
    ensures CubeFraction(23, 2, Sha256.K0()[8]) && CubeFraction(29, 3, Sha256.K0()[9])
    ensures CubeFraction(31, 3, Sha256.K0()[10]) && CubeFraction(37, 3, Sha256.K0()[11])
  {
  }

  lemma CubeRoots3()
    ensures CubeFraction(41, 3, Sha256.K0()[12]) && CubeFraction(43, 3, Sha256.K0()[13])
    ensures CubeFraction(47, 3, Sha256.K0()[14]) && CubeFraction(53, 3, Sha256.K0()[15])
  {
  }

  lemma CubeRoots4()
    ensures CubeFraction(59, 3, Sha256.K1()[0]) && CubeFraction(61, 3, Sha256.K1()[1])
    ensures CubeFraction(67, 4, Sha256.K1()[2]) && CubeFraction(71, 4, Sha256.K1()[3])
  {
  }

  lemma CubeRoots5()
    ensures CubeFraction(73, 4, Sha256.K1()[4]) && CubeFraction(79, 4, Sha256.K1()[5])
    ensures CubeFraction(83, 4, Sha256.K1()[6]) && CubeFraction(89, 4, Sha256.K1()[7])
  {
  }

  lemma CubeRoots6()
    ensures CubeFraction(97, 4, Sha256.K1()[8]) && CubeFraction(101, 4, Sha256.K1()[9])
    ensures CubeFraction(103, 4, Sha256.K1()[10]) && CubeFraction(107, 4, Sha256.K1()[11])
  {
  }

  lemma CubeRoots7()
    ensures CubeFraction(109, 4, Sha256.K1()[12]) && CubeFraction(113, 4, Sha256.K1()[13])
    ensures CubeFraction(127, 5, Sha256.K1()[14]) && CubeFraction(131, 5, Sha256.K1()[15])
  {
  }

  lemma CubeRoots8()
    ensures CubeFraction(137, 5, Sha256.K2()[0]) && CubeFraction(139, 5, Sha256.K2()[1])
    ensures CubeFraction(149, 5, Sha256.K2()[2]) && CubeFraction(151, 5, Sha256.K2()[3])
  {
  }

  lemma CubeRoots9()
    ensures CubeFraction(157, 5, Sha256.K2()[4]) && CubeFraction(163, 5, Sha256.K2()[5])
    ensures CubeFraction(167, 5, Sha256.K2()[6]) && CubeFraction(173, 5, Sha256.K2()[7])
  {
  }

  lemma CubeRoots10()
    ensures CubeFraction(179, 5, Sha256.K2()[8]) && CubeFraction(181, 5, Sha256.K2()[9])
    ensures CubeFraction(191, 5, Sha256.K2()[10]) && CubeFraction(193, 5, Sha256.K2()[11])
  {
  }

  lemma CubeRoots11()
    ensures CubeFraction(197, 5, Sha256.K2()[12]) && CubeFraction(199, 5, Sha256.K2()[13])
    ensures CubeFraction(211, 5, Sha256.K2()[14]) && CubeFraction(223, 6, Sha256.K2()[15])
  {
  }

  lemma CubeRoots12()
    ensures CubeFraction(227, 6, Sha256.K3()[0]) && CubeFraction(229, 6, Sha256.K3()[1])
    ensures CubeFraction(233, 6, Sha256.K3()[2]) && CubeFraction(239, 6, Sha256.K3()[3])
  {
  }

  lemma CubeRoots13()
    ensures CubeFraction(241, 6, Sha256.K3()[4]) && CubeFraction(251, 6, Sha256.K3()[5])
    ensures CubeFraction(257, 6, Sha256.K3()[6]) && CubeFraction(263, 6, Sha256.K3()[7])
  {
  }

  lemma CubeRoots14()
    ensures CubeFraction(269, 6, Sha256.K3()[8]) && CubeFraction(271, 6, Sha256.K3()[9])
    ensures CubeFraction(277, 6, Sha256.K3()[10]) && CubeFraction(281, 6, Sha256.K3()[11])
  {
  }

  lemma CubeRoots15()
    ensures CubeFraction(283, 6, Sha256.K3()[12]) && CubeFraction(293, 6, Sha256.K3()[13])
    ensures CubeFraction(307, 6, Sha256.K3()[14]) && CubeFraction(311, 6, Sha256.K3()[15])
  {
  }

  /** Section 5.3.3: the square roots of the first eight. */
  lemma SquareRoots()
    ensures
      var s := Sha256.INITIAL;
      && SquareFraction(2, 1, s.a)
      && SquareFraction(3, 1, s.b)
      && SquareFraction(5, 2, s.c)
      && SquareFraction(7, 2, s.d)
      && SquareFraction(11, 3, s.e)
      && SquareFraction(13, 3, s.f)
      && SquareFraction(17, 4, s.g)
      && SquareFraction(19, 4, s.h)
  {
  }

  /** The constants of the two lines of RIPEMD-160: roots of 2, 3, 5 and 7, and zero in the round that has none. */
  lemma LineConstants()
    ensures Ripemd160.K(Ripemd160.Left, 0) == 0 && Ripemd160.K(Ripemd160.Right, 4) == 0
    ensures Square30(2, Ripemd160.K(Ripemd160.Left, 1)) && Square30(3, Ripemd160.K(Ripemd160.Left, 2))
    ensures Square30(5, Ripemd160.K(Ripemd160.Left, 3)) && Square30(7, Ripemd160.K(Ripemd160.Left, 4))
    ensures Cube30(2, Ripemd160.K(Ripemd160.Right, 0)) && Cube30(3, Ripemd160.K(Ripemd160.Right, 1))
    ensures Cube30(5, Ripemd160.K(Ripemd160.Right, 2)) && Cube30(7, Ripemd160.K(Ripemd160.Right, 3))
  {
  }
}
