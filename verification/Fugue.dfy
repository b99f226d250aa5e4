/**
 * Fugue: instead of rotating its state after every mix, the program renames the words, and
 * remembers across calls how far the names have turned.
 */
module Fugue {
  import opened BitStrings
  import opened Blocks
  import opened Counters
  import opened Words

  /** The mixing of four words by table; which tables does not matter here. */
  type Mix = (Word, Word, Word, Word) -> (Word, Word, Word, Word)

  // ---------------------------------------------------------------------------------
  // The simple form: the state really is rotated

  /** "ROR(3, s)": the last three words come first. */
  function Ror3(s: seq<Word>): (r: seq<Word>)
    requires |s| >= 3
    ensures |r| == |s|
  {
    s[|s| - 3..] + s[..|s| - 3]
  }

  /** Word `i` is xored with word `j`. */
  function Onto(s: seq<Word>, i: nat, j: nat): (r: seq<Word>)
    requires i < |s| && j < |s|
    ensures |r| == |s|
  {
    s[i := Xored(s[i], s[j])]
  }

  /** The last words of a column mix: words 4, 5 and 6 go to 0, 1, 2 and to `far` and its neighbours. */
  function Cmix(s: seq<Word>, far: nat): (r: seq<Word>)
    requires 7 <= far && far + 3 <= |s|
    ensures |r| == |s|
  {
    Onto(Onto(Onto(Onto(Onto(Onto(s, 0, 4), 1, 5), 2, 6), far, 4), far + 1, 5), far + 2, 6)
  }

  function Smix(mix: Mix, s: seq<Word>): (r: seq<Word>)
    requires |s| >= 4
    ensures |r| == |s|
  {
    var m := mix(s[0], s[1], s[2], s[3]);
    s[0 := m.0][1 := m.1][2 := m.2][3 := m.3]
  }

  /** Rotation, column mix and word mix, `n` times. */
  function SubRounds(mix: Mix, s: seq<Word>, far: nat, n: nat): (r: seq<Word>)
    requires 7 <= far && far + 3 <= |s|
    ensures |r| == |s|
  {
    if n == 0 then s else Smix(mix, Cmix(Ror3(SubRounds(mix, s, far, n - 1)), far))
  }

  lemma OneTurn(mix: Mix, s: seq<Word>, far: nat, n: nat)
    requires 7 <= far && far + 3 <= |s|
    ensures SubRounds(mix, s, far, n + 1) == Smix(mix, Cmix(Ror3(SubRounds(mix, s, far, n)), far))
    ensures SubRounds(mix, s, far, 0) == s
  {
  }

  /** Fugue-224 and 256, Fugue-384, Fugue-512. */
  datatype Variant = Small | Medium | Large
  {
    /** How many words of state. */
    function Size(): nat {
      if Small? then 30 else 36
    }

    /** How many rotations by three in a step. */
    function Turns(): nat {
      if Small? then 2 else if Medium? then 3 else 4
    }

    /** After how many steps the names come round again. */
    function Cases(): nat {
      if Small? then 5 else if Medium? then 4 else 3
    }

    /** Where the column mix also reaches. */
    function Far(): nat {
      if Small? then 15 else 18
    }

    /** The input word enters the state. */
    function Tix(s: seq<Word>, q: Word): (r: seq<Word>)
      requires |s| == Size()
      ensures |r| == |s|
    {
      match this
      case Small => Onto(Onto(Onto(s, 10, 0)[0 := q], 8, 0), 1, 24)
      case Medium => Onto(Onto(Onto(Onto(s, 16, 0)[0 := q], 8, 0), 1, 27), 4, 30)
      case Large => Onto(Onto(Onto(Onto(Onto(s, 22, 0)[0 := q], 8, 0), 1, 24), 4, 27), 7, 30)
    }

    function Step(mix: Mix, s: seq<Word>, q: Word): (r: seq<Word>)
      requires |s| == Size()
      ensures |r| == |s|
    {
      SubRounds(mix, Tix(s, q), Far(), Turns())
    }

    /** The state after a sequence of input words. */
    function Steps(mix: Mix, s: seq<Word>, words: seq<Word>): (r: seq<Word>)
      requires |s| == Size()
      ensures |r| == |s|
    {
      if |words| == 0 then s else Step(mix, Steps(mix, s, words[..|words| - 1]), words[|words| - 1])
    }
  }

  /** The words an input word touches, for the three sizes; the others stay. */
  lemma TixSmall(s: seq<Word>, q: Word)
    requires |s| == 30
    ensures Small.Tix(s, q) ==
      s[0 := q][1 := Xored(s[1], s[24])][8 := Xored(s[8], q)][10 := Xored(s[10], s[0])]
  {
    hide Xored;
  }

  lemma TixMedium(s: seq<Word>, q: Word)
    requires |s| == 36
    ensures Medium.Tix(s, q) ==
      s[0 := q][1 := Xored(s[1], s[27])][4 := Xored(s[4], s[30])][8 := Xored(s[8], q)][16 := Xored(s[16], s[0])]
  {
    hide Xored;
  }

  lemma TixLarge(s: seq<Word>, q: Word)
    requires |s| == 36
    ensures Large.Tix(s, q) ==
      s[0 := q][1 := Xored(s[1], s[24])][4 := Xored(s[4], s[27])][7 := Xored(s[7], s[30])][8 := Xored(s[8], q)]
       [22 := Xored(s[22], s[0])]
  {
    hide Xored;
  }

  /** The words a column mix touches. */
  lemma CmixWords(s: seq<Word>, far: nat)
    requires 7 <= far && far + 3 <= |s|
    ensures Cmix(s, far) ==
      s[0 := Xored(s[0], s[4])][1 := Xored(s[1], s[5])][2 := Xored(s[2], s[6])]
       [far := Xored(s[far], s[4])][far + 1 := Xored(s[far + 1], s[5])][far + 2 := Xored(s[far + 2], s[6])]
  {
    hide Xored;
  }

  /** A step of the simple form, spelled out: two, three or four times rotation by three, column mix with words
      15 or 18 and the two after it, word mix. */
  lemma StepIs(mix: Mix, s: seq<Word>, q: Word)
    requires |s| == 30
    ensures
      var t := Small.Tix(s, q);
      Small.Step(mix, s, q) == Smix(mix, Cmix(Ror3(Smix(mix, Cmix(Ror3(t), 15))), 15))
  {
    hide Smix, Cmix, Ror3;
    OneTurn(mix, Small.Tix(s, q), 15, 0);
    OneTurn(mix, Small.Tix(s, q), 15, 1);
  }

  lemma LongStepIs(mix: Mix, s: seq<Word>, q: Word)
    requires |s| == 36
    ensures
      var t := Medium.Tix(s, q);
      Medium.Step(mix, s, q) ==
        Smix(mix, Cmix(Ror3(Smix(mix, Cmix(Ror3(Smix(mix, Cmix(Ror3(t), 18))), 18))), 18))
    ensures
      var t := Large.Tix(s, q);
      Large.Step(mix, s, q) ==
        Smix(mix, Cmix(Ror3(Smix(mix, Cmix(Ror3(Smix(mix, Cmix(Ror3(Smix(mix, Cmix(Ror3(t), 18))), 18))), 18))), 18))
  {
    hide Smix, Cmix, Ror3;
    OneTurn(mix, Medium.Tix(s, q), 18, 0);
    OneTurn(mix, Medium.Tix(s, q), 18, 1);
    OneTurn(mix, Medium.Tix(s, q), 18, 2);
    OneTurn(mix, Large.Tix(s, q), 18, 0);
    OneTurn(mix, Large.Tix(s, q), 18, 1);
    OneTurn(mix, Large.Tix(s, q), 18, 2);
    OneTurn(mix, Large.Tix(s, q), 18, 3);
  }

  // ---------------------------------------------------------------------------------
  // Renamed words

  /** The place of word `i` when the names have turned to `b`. */
  function Ix(n: nat, b: nat, i: nat): (x: nat)
    requires b < n && i < n
    ensures x < n
  {
    if i + b < n then i + b else i + b - n
  }

  /** The rotated state that the words stand for. */
  function View(w: seq<Word>, b: nat): (s: seq<Word>)
    requires b < |w|
    ensures |s| == |w| && forall i :: 0 <= i < |w| ==> s[i] == w[Ix(|w|, b, i)]
  {
    w[b..] + w[..b]
  }

  /** Three places back. */
  function Back3(n: nat, b: nat): (c: nat)
    requires b < n && n >= 3
    ensures c < n
  {
    if b >= 3 then b - 3 else b + n - 3
  }

  lemma RenamedIsRotated(w: seq<Word>, b: nat)
    requires b < |w| && |w| >= 3
    ensures View(w, Back3(|w|, b)) == Ror3(View(w, b))
  {
  }

  /** One assignment "x ^= y" of a macro. */
  method XorTo(a: array<Word>, x: nat, y: nat, ghost b: nat, ghost i: nat, ghost j: nat)
    requires b < a.Length && i < a.Length && j < a.Length && x == Ix(a.Length, b, i) && y == Ix(a.Length, b, j)
    modifies a
    ensures View(a[..], b) == Onto(View(old(a[..]), b), i, j)
  {
    hide Xored;
    a[x] := Xored(a[x], a[y]);
  }

  method Put(a: array<Word>, x: nat, v: Word, ghost b: nat, ghost i: nat)
    requires b < a.Length && i < a.Length && x == Ix(a.Length, b, i)
    modifies a
    ensures View(a[..], b) == View(old(a[..]), b)[i := v]
  {
    a[x] := v;
  }

  method Tix2(a: array<Word>, q: Word, x00: nat, x01: nat, x08: nat, x10: nat, x24: nat, ghost b: nat)
    requires a.Length == Small.Size() && b < a.Length
    requires x00 == Ix(a.Length, b, 0) && x01 == Ix(a.Length, b, 1) && x08 == Ix(a.Length, b, 8) &&
             x10 == Ix(a.Length, b, 10)
    requires x24 == Ix(a.Length, b, 24)
    modifies a
    ensures View(a[..], b) == Small.Tix(View(old(a[..]), b), q)
  {
    hide View, Onto;
    XorTo(a, x10, x00, b, 10, 0);
    Put(a, x00, q, b, 0);
    XorTo(a, x08, x00, b, 8, 0);
    XorTo(a, x01, x24, b, 1, 24);
  }

  method Tix3(a: array<Word>, q: Word, x00: nat, x01: nat, x04: nat, x08: nat, x16: nat, x27: nat, x30: nat,
        ghost b: nat)
    requires a.Length == Medium.Size() && b < a.Length
    requires x00 == Ix(a.Length, b, 0) && x01 == Ix(a.Length, b, 1) && x04 == Ix(a.Length, b, 4) &&
             x08 == Ix(a.Length, b, 8)
    requires x16 == Ix(a.Length, b, 16) && x27 == Ix(a.Length, b, 27) && x30 == Ix(a.Length, b, 30)
    modifies a
    ensures View(a[..], b) == Medium.Tix(View(old(a[..]), b), q)
  {
    hide View, Onto;
    XorTo(a, x16, x00, b, 16, 0);
    Put(a, x00, q, b, 0);
    XorTo(a, x08, x00, b, 8, 0);
    XorTo(a, x01, x27, b, 1, 27);
    XorTo(a, x04, x30, b, 4, 30);
  }

  method Tix4(a: array<Word>, q: Word, x00: nat, x01: nat, x04: nat, x07: nat, x08: nat, x22: nat, x24: nat,
        x27: nat, x30: nat, ghost b: nat)
    requires a.Length == Large.Size() && b < a.Length
    requires x00 == Ix(a.Length, b, 0) && x01 == Ix(a.Length, b, 1) && x04 == Ix(a.Length, b, 4) &&
             x07 == Ix(a.Length, b, 7)
    requires x08 == Ix(a.Length, b, 8) && x22 == Ix(a.Length, b, 22) && x24 == Ix(a.Length, b, 24) &&
             x27 == Ix(a.Length, b, 27)
    requires x30 == Ix(a.Length, b, 30)
    modifies a
    ensures View(a[..], b) == Large.Tix(View(old(a[..]), b), q)
  {
    hide View, Onto;
    XorTo(a, x22, x00, b, 22, 0);
    Put(a, x00, q, b, 0);
    XorTo(a, x08, x00, b, 8, 0);
    XorTo(a, x01, x24, b, 1, 24);
    XorTo(a, x04, x27, b, 4, 27);
    XorTo(a, x07, x30, b, 7, 30);
  }

  method Cmix30(a: array<Word>, x00: nat, x01: nat, x02: nat, x04: nat, x05: nat, x06: nat, x15: nat, x16: nat,
        x17: nat, ghost b: nat)
    requires a.Length == 30 && b < a.Length
    requires x00 == Ix(a.Length, b, 0) && x01 == Ix(a.Length, b, 1) && x02 == Ix(a.Length, b, 2) &&
             x04 == Ix(a.Length, b, 4)
    requires x05 == Ix(a.Length, b, 5) && x06 == Ix(a.Length, b, 6) && x15 == Ix(a.Length, b, 15) &&
             x16 == Ix(a.Length, b, 16)
    requires x17 == Ix(a.Length, b, 17)
    modifies a
    ensures View(a[..], b) == Cmix(View(old(a[..]), b), 15)
  {
    hide View, Onto;
    XorTo(a, x00, x04, b, 0, 4);
    XorTo(a, x01, x05, b, 1, 5);
    XorTo(a, x02, x06, b, 2, 6);
    XorTo(a, x15, x04, b, 15, 4);
    XorTo(a, x16, x05, b, 16, 5);
    XorTo(a, x17, x06, b, 17, 6);
  }

  method Cmix36(a: array<Word>, x00: nat, x01: nat, x02: nat, x04: nat, x05: nat, x06: nat, x18: nat, x19: nat,
        x20: nat, ghost b: nat)
    requires a.Length == 36 && b < a.Length
    requires x00 == Ix(a.Length, b, 0) && x01 == Ix(a.Length, b, 1) && x02 == Ix(a.Length, b, 2) &&
             x04 == Ix(a.Length, b, 4)
    requires x05 == Ix(a.Length, b, 5) && x06 == Ix(a.Length, b, 6) && x18 == Ix(a.Length, b, 18) &&
             x19 == Ix(a.Length, b, 19)
    requires x20 == Ix(a.Length, b, 20)
    modifies a
    ensures View(a[..], b) == Cmix(View(old(a[..]), b), 18)
  {
    hide View, Onto;
    XorTo(a, x00, x04, b, 0, 4);
    XorTo(a, x01, x05, b, 1, 5);
    XorTo(a, x02, x06, b, 2, 6);
    XorTo(a, x18, x04, b, 18, 4);
    XorTo(a, x19, x05, b, 19, 5);
    XorTo(a, x20, x06, b, 20, 6);
  }

  method SmixInPlace(mix: Mix, a: array<Word>, x0: nat, x1: nat, x2: nat, x3: nat, ghost b: nat)
    requires a.Length >= 4 && b < a.Length
    requires x0 == Ix(a.Length, b, 0) && x1 == Ix(a.Length, b, 1) && x2 == Ix(a.Length, b, 2) &&
             x3 == Ix(a.Length, b, 3)
    modifies a
    ensures View(a[..], b) == Smix(mix, View(old(a[..]), b))
  {
    var m := mix(a[x0], a[x1], a[x2], a[x3]);
    Put(a, x0, m.0, b, 0);
    Put(a, x1, m.1, b, 1);
    Put(a, x2, m.2, b, 2);
    Put(a, x3, m.3, b, 3);
  }

  /** A column mix and a word mix, under names turned three places further. */
  method Turn30(mix: Mix, a: array<Word>, x00: nat, x01: nat, x02: nat, x03: nat, x04: nat, x05: nat, x06: nat,
                x15: nat, x16: nat, x17: nat, ghost b: nat)
    requires a.Length == 30 && b < 30
    requires var c := Back3(30, b);
             && x00 == Ix(30, c, 0) && x01 == Ix(30, c, 1) && x02 == Ix(30, c, 2) && x03 == Ix(30, c, 3)
             && x04 == Ix(30, c, 4) && x05 == Ix(30, c, 5) && x06 == Ix(30, c, 6)
             && x15 == Ix(30, c, 15) && x16 == Ix(30, c, 16) && x17 == Ix(30, c, 17)
    modifies a
    ensures View(a[..], Back3(30, b)) == Smix(mix, Cmix(Ror3(View(old(a[..]), b)), 15))
  {
    hide View, Ror3, Cmix, Smix, Ix, Back3;
    RenamedIsRotated(a[..], b);
    Cmix30(a, x00, x01, x02, x04, x05, x06, x15, x16, x17, Back3(30, b));
    SmixInPlace(mix, a, x00, x01, x02, x03, Back3(30, b));
  }

  method Turn36(mix: Mix, a: array<Word>, x00: nat, x01: nat, x02: nat, x03: nat, x04: nat, x05: nat, x06: nat,
                x18: nat, x19: nat, x20: nat, ghost b: nat)
    requires a.Length == 36 && b < 36
    requires var c := Back3(36, b);
             && x00 == Ix(36, c, 0) && x01 == Ix(36, c, 1) && x02 == Ix(36, c, 2) && x03 == Ix(36, c, 3)
             && x04 == Ix(36, c, 4) && x05 == Ix(36, c, 5) && x06 == Ix(36, c, 6)
             && x18 == Ix(36, c, 18) && x19 == Ix(36, c, 19) && x20 == Ix(36, c, 20)
    modifies a
    ensures View(a[..], Back3(36, b)) == Smix(mix, Cmix(Ror3(View(old(a[..]), b)), 18))
  {
    hide View, Ror3, Cmix, Smix, Ix, Back3;
    RenamedIsRotated(a[..], b);
    Cmix36(a, x00, x01, x02, x04, x05, x06, x18, x19, x20, Back3(36, b));
    SmixInPlace(mix, a, x00, x01, x02, x03, Back3(36, b));
  }

  /** How far the names have turned before case `r`. */
  function Base(v: Variant, r: nat): (b: nat)
    requires r < v.Cases()
    ensures b < v.Size()
  {
    if r == 0 then 0 else v.Size() - 3 * v.Turns() * r
  }

  /** Case 0 of "fugue2_core". */
  method SmallStep0(mix: Mix, a: array<Word>, q: Word)
    requires a.Length == Small.Size()
    modifies a
    ensures View(a[..], Base(Small, 1)) == Small.Step(mix, View(old(a[..]), Base(Small, 0)), q)
  {
    hide View, Ror3, Cmix, Smix, SubRounds, Variant.Tix;
    ghost var t := Small.Tix(View(a[..], 0), q);
    OneTurn(mix, t, 15, 0);
    OneTurn(mix, t, 15, 1);
    Tix2(a, q, 0, 1, 8, 10, 24, 0);
    Turn30(mix, a, 27, 28, 29, 0, 1, 2, 3, 12, 13, 14, 0);
    Turn30(mix, a, 24, 25, 26, 27, 28, 29, 0, 9, 10, 11, 27);
  }

  /** Case 1 of "fugue2_core". */
  method SmallStep1(mix: Mix, a: array<Word>, q: Word)
    requires a.Length == Small.Size()
    modifies a
    ensures View(a[..], Base(Small, 2)) == Small.Step(mix, View(old(a[..]), Base(Small, 1)), q)
  {
    hide View, Ror3, Cmix, Smix, SubRounds, Variant.Tix;
    ghost var t := Small.Tix(View(a[..], 24), q);
    OneTurn(mix, t, 15, 0);
    OneTurn(mix, t, 15, 1);
    Tix2(a, q, 24, 25, 2, 4, 18, 24);
    Turn30(mix, a, 21, 22, 23, 24, 25, 26, 27, 6, 7, 8, 24);
    Turn30(mix, a, 18, 19, 20, 21, 22, 23, 24, 3, 4, 5, 21);
  }

  /** Case 2 of "fugue2_core". */
  method SmallStep2(mix: Mix, a: array<Word>, q: Word)
    requires a.Length == Small.Size()
    modifies a
    ensures View(a[..], Base(Small, 3)) == Small.Step(mix, View(old(a[..]), Base(Small, 2)), q)
  {
    hide View, Ror3, Cmix, Smix, SubRounds, Variant.Tix;
    ghost var t := Small.Tix(View(a[..], 18), q);
    OneTurn(mix, t, 15, 0);
    OneTurn(mix, t, 15, 1);
    Tix2(a, q, 18, 19, 26, 28, 12, 18);
    Turn30(mix, a, 15, 16, 17, 18, 19, 20, 21, 0, 1, 2, 18);
    Turn30(mix, a, 12, 13, 14, 15, 16, 17, 18, 27, 28, 29, 15);
  }

  /** Case 3 of "fugue2_core". */
  method SmallStep3(mix: Mix, a: array<Word>, q: Word)
    requires a.Length == Small.Size()
    modifies a
    ensures View(a[..], Base(Small, 4)) == Small.Step(mix, View(old(a[..]), Base(Small, 3)), q)
  {
    hide View, Ror3, Cmix, Smix, SubRounds, Variant.Tix;
    ghost var t := Small.Tix(View(a[..], 12), q);
    OneTurn(mix, t, 15, 0);
    OneTurn(mix, t, 15, 1);
    Tix2(a, q, 12, 13, 20, 22, 6, 12);
    Turn30(mix, a, 9, 10, 11, 12, 13, 14, 15, 24, 25, 26, 12);
    Turn30(mix, a, 6, 7, 8, 9, 10, 11, 12, 21, 22, 23, 9);
  }

  /** Case 4 of "fugue2_core". */
  method SmallStep4(mix: Mix, a: array<Word>, q: Word)
    requires a.Length == Small.Size()
    modifies a
    ensures View(a[..], Base(Small, 0)) == Small.Step(mix, View(old(a[..]), Base(Small, 4)), q)
  {
    hide View, Ror3, Cmix, Smix, SubRounds, Variant.Tix;
    ghost var t := Small.Tix(View(a[..], 6), q);
    OneTurn(mix, t, 15, 0);
    OneTurn(mix, t, 15, 1);
    Tix2(a, q, 6, 7, 14, 16, 0, 6);
    Turn30(mix, a, 3, 4, 5, 6, 7, 8, 9, 18, 19, 20, 6);
    Turn30(mix, a, 0, 1, 2, 3, 4, 5, 6, 15, 16, 17, 3);
  }

  /** Case 0 of "fugue3_core". */
  method MediumStep0(mix: Mix, a: array<Word>, q: Word)
    requires a.Length == Medium.Size()
    modifies a
    ensures View(a[..], Base(Medium, 1)) == Medium.Step(mix, View(old(a[..]), Base(Medium, 0)), q)
  {
    hide View, Ror3, Cmix, Smix, SubRounds, Variant.Tix;
    ghost var t := Medium.Tix(View(a[..], 0), q);
    OneTurn(mix, t, 18, 0);
    OneTurn(mix, t, 18, 1);
    OneTurn(mix, t, 18, 2);
    Tix3(a, q, 0, 1, 4, 8, 16, 27, 30, 0);
    Turn36(mix, a, 33, 34, 35, 0, 1, 2, 3, 15, 16, 17, 0);
    Turn36(mix, a, 30, 31, 32, 33, 34, 35, 0, 12, 13, 14, 33);
    Turn36(mix, a, 27, 28, 29, 30, 31, 32, 33, 9, 10, 11, 30);
  }

  /** Case 1 of "fugue3_core". */
  method MediumStep1(mix: Mix, a: array<Word>, q: Word)
    requires a.Length == Medium.Size()
    modifies a
    ensures View(a[..], Base(Medium, 2)) == Medium.Step(mix, View(old(a[..]), Base(Medium, 1)), q)
  {
    hide View, Ror3, Cmix, Smix, SubRounds, Variant.Tix;
    ghost var t := Medium.Tix(View(a[..], 27), q);
    OneTurn(mix, t, 18, 0);
    OneTurn(mix, t, 18, 1);
    OneTurn(mix, t, 18, 2);
    Tix3(a, q, 27, 28, 31, 35, 7, 18, 21, 27);
    Turn36(mix, a, 24, 25, 26, 27, 28, 29, 30, 6, 7, 8, 27);
    Turn36(mix, a, 21, 22, 23, 24, 25, 26, 27, 3, 4, 5, 24);
    Turn36(mix, a, 18, 19, 20, 21, 22, 23, 24, 0, 1, 2, 21);
  }

  /** Case 2 of "fugue3_core". */
  method MediumStep2(mix: Mix, a: array<Word>, q: Word)
    requires a.Length == Medium.Size()
    modifies a
    ensures View(a[..], Base(Medium, 3)) == Medium.Step(mix, View(old(a[..]), Base(Medium, 2)), q)
  {
    hide View, Ror3, Cmix, Smix, SubRounds, Variant.Tix;
    ghost var t := Medium.Tix(View(a[..], 18), q);
    OneTurn(mix, t, 18, 0);
    OneTurn(mix, t, 18, 1);
    OneTurn(mix, t, 18, 2);
    Tix3(a, q, 18, 19, 22, 26, 34, 9, 12, 18);
    Turn36(mix, a, 15, 16, 17, 18, 19, 20, 21, 33, 34, 35, 18);
    Turn36(mix, a, 12, 13, 14, 15, 16, 17, 18, 30, 31, 32, 15);
    Turn36(mix, a, 9, 10, 11, 12, 13, 14, 15, 27, 28, 29, 12);
  }

  /** Case 3 of "fugue3_core". */
  method MediumStep3(mix: Mix, a: array<Word>, q: Word)
    requires a.Length == Medium.Size()
    modifies a
    ensures View(a[..], Base(Medium, 0)) == Medium.Step(mix, View(old(a[..]), Base(Medium, 3)), q)
  {
    hide View, Ror3, Cmix, Smix, SubRounds, Variant.Tix;
    ghost var t := Medium.Tix(View(a[..], 9), q);
    OneTurn(mix, t, 18, 0);
    OneTurn(mix, t, 18, 1);
    OneTurn(mix, t, 18, 2);
    Tix3(a, q, 9, 10, 13, 17, 25, 0, 3, 9);
    Turn36(mix, a, 6, 7, 8, 9, 10, 11, 12, 24, 25, 26, 9);
    Turn36(mix, a, 3, 4, 5, 6, 7, 8, 9, 21, 22, 23, 6);
    Turn36(mix, a, 0, 1, 2, 3, 4, 5, 6, 18, 19, 20, 3);
  }

  /** Case 0 of "fugue4_core". */
  method LargeStep0(mix: Mix, a: array<Word>, q: Word)
    requires a.Length == Large.Size()
    modifies a
    ensures View(a[..], Base(Large, 1)) == Large.Step(mix, View(old(a[..]), Base(Large, 0)), q)
  {
    hide View, Ror3, Cmix, Smix, SubRounds, Variant.Tix;
    ghost var t := Large.Tix(View(a[..], 0), q);
    OneTurn(mix, t, 18, 0);
    OneTurn(mix, t, 18, 1);
    OneTurn(mix, t, 18, 2);
    OneTurn(mix, t, 18, 3);
    Tix4(a, q, 0, 1, 4, 7, 8, 22, 24, 27, 30, 0);
    Turn36(mix, a, 33, 34, 35, 0, 1, 2, 3, 15, 16, 17, 0);
    Turn36(mix, a, 30, 31, 32, 33, 34, 35, 0, 12, 13, 14, 33);
    Turn36(mix, a, 27, 28, 29, 30, 31, 32, 33, 9, 10, 11, 30);
    Turn36(mix, a, 24, 25, 26, 27, 28, 29, 30, 6, 7, 8, 27);
  }

  /** Case 1 of "fugue4_core". */
  method LargeStep1(mix: Mix, a: array<Word>, q: Word)
    requires a.Length == Large.Size()
    modifies a
    ensures View(a[..], Base(Large, 2)) == Large.Step(mix, View(old(a[..]), Base(Large, 1)), q)
  {
    hide View, Ror3, Cmix, Smix, SubRounds, Variant.Tix;
    ghost var t := Large.Tix(View(a[..], 24), q);
    OneTurn(mix, t, 18, 0);
    OneTurn(mix, t, 18, 1);
    OneTurn(mix, t, 18, 2);
    OneTurn(mix, t, 18, 3);
    Tix4(a, q, 24, 25, 28, 31, 32, 10, 12, 15, 18, 24);
    Turn36(mix, a, 21, 22, 23, 24, 25, 26, 27, 3, 4, 5, 24);
    Turn36(mix, a, 18, 19, 20, 21, 22, 23, 24, 0, 1, 2, 21);
    Turn36(mix, a, 15, 16, 17, 18, 19, 20, 21, 33, 34, 35, 18);
    Turn36(mix, a, 12, 13, 14, 15, 16, 17, 18, 30, 31, 32, 15);
  }

  /** Case 2 of "fugue4_core". */
  method LargeStep2(mix: Mix, a: array<Word>, q: Word)
    requires a.Length == Large.Size()
    modifies a
    ensures View(a[..], Base(Large, 0)) == Large.Step(mix, View(old(a[..]), Base(Large, 2)), q)
  {
    hide View, Ror3, Cmix, Smix, SubRounds, Variant.Tix;
    ghost var t := Large.Tix(View(a[..], 12), q);
    OneTurn(mix, t, 18, 0);
    OneTurn(mix, t, 18, 1);
    OneTurn(mix, t, 18, 2);
    OneTurn(mix, t, 18, 3);
    Tix4(a, q, 12, 13, 16, 19, 20, 34, 0, 3, 6, 12);
    Turn36(mix, a, 9, 10, 11, 12, 13, 14, 15, 27, 28, 29, 12);
    Turn36(mix, a, 6, 7, 8, 9, 10, 11, 12, 24, 25, 26, 9);
    Turn36(mix, a, 3, 4, 5, 6, 7, 8, 9, 21, 22, 23, 6);
    Turn36(mix, a, 0, 1, 2, 3, 4, 5, 6, 18, 19, 20, 3);
  }

  method StepInPlace(v: Variant, mix: Mix, a: array<Word>, r: nat, q: Word) returns (r': nat)
    requires a.Length == v.Size() && r < v.Cases()
    modifies a
    ensures r' == (r + 1) % v.Cases()
    ensures View(a[..], Base(v, r')) == v.Step(mix, View(old(a[..]), Base(v, r)), q)
  {
    hide View, Variant.Step, Base;
    r' := (r + 1) % v.Cases();
    match v
    case Small =>
      if r == 0 {
        SmallStep0(mix, a, q);
      } else if r == 1 {
        SmallStep1(mix, a, q);
      } else if r == 2 {
        SmallStep2(mix, a, q);
      } else if r == 3 {
        SmallStep3(mix, a, q);
      } else {
        SmallStep4(mix, a, q);
      }
    case Medium =>
      if r == 0 {
        MediumStep0(mix, a, q);
      } else if r == 1 {
        MediumStep1(mix, a, q);
      } else if r == 2 {
        MediumStep2(mix, a, q);
      } else {
        MediumStep3(mix, a, q);
      }
    case Large =>
      if r == 0 {
        LargeStep0(mix, a, q);
      } else if r == 1 {
        LargeStep1(mix, a, q);
      } else {
        LargeStep2(mix, a, q);
      }
  }

  // ---------------------------------------------------------------------------------
  // Words held back

  function Shifted(p: Word, o: Octet): Word {
    (p << 8) | (o as bv32)
  }

  /** Octets shifted into a word one by one. */
  function Accumulate(p: Word, b: seq<Octet>): Word {
    if |b| == 0 then p else Shifted(Accumulate(p, b[..|b| - 1]), b[|b| - 1])
  }

  lemma AccumulateNothing()
    ensures Accumulate(0, []) == 0
  {
  }

  lemma {:induction false} AccumulateMore(b: seq<Octet>, o: Octet)
    ensures Accumulate(0, b + [o]) == Shifted(Accumulate(0, b), o)
  {
    assert (b + [o])[..|b + [o]| - 1] == b;
  }

  /** "p = (p << 8) | *data", for every octet. */
  method ShiftIn(word: Word, data: seq<Octet>, ghost before: seq<Octet>) returns (p: Word)
    requires word == Accumulate(0, before)
    ensures p == Accumulate(0, before + data)
  {
    hide Accumulate, Shifted;
    p := word;
    assert before + data[..0] == before;
    for i := 0 to |data|
      invariant p == Accumulate(0, before + data[..i])
    {
      AccumulateMore(before + data[..i], data[i]);
      assert before + data[..i + 1] == before + data[..i] + [data[i]];
      p := Shifted(p, data[i]);
    }
    assert before + data[..|data|] == before + data;
  }

  lemma CaseAfter(k: nat, c: nat)
    requires c == 3 || c == 4 || c == 5
    ensures (k + 4) / 4 == k / 4 + 1 && ((k + 4) / 4) % c == ((k / 4) % c + 1) % c
  {
  }

  lemma FourShifts(p: Word, b: seq<Octet>)
    requires |b| == 4
    ensures Shifted(Shifted(Shifted(Shifted(p, b[0]), b[1]), b[2]), b[3]) == WordBE(b)
  {
  }

  lemma {:induction false} AccumulateWord(p: Word, b: seq<Octet>)
    requires |b| == 4
    ensures Accumulate(p, b) == WordBE(b)
  {
    hide Shifted, WordBE;
    FourShifts(p, b);
    assert b[..4] == b && b[..3][..2] == b[..2] && b[..2][..1] == b[..1] && b[..1][..0] == [];
    assert Accumulate(p, b[..1]) == Shifted(p, b[0]);
    assert Accumulate(p, b[..2]) == Shifted(Accumulate(p, b[..1]), b[1]);
    assert Accumulate(p, b[..3]) == Shifted(Accumulate(p, b[..2]), b[2]);
  }

  /** The high `n` bits of an octet. */
  function Masked(ub: Octet, n: nat): Octet
    requires n < 8
  {
    ub & !(0xff >> n)
  }

  lemma NothingMasked(ub: Octet)
    ensures Masked(ub, 0) == 0
  {
  }

  /** How many octets are missing to a whole word. */
  function Missing(k: nat): nat {
    (4 - k % 4) % 4
  }

  lemma UpToWord(k: nat)
    ensures (k + Missing(k) + 8) % 4 == 0
  {
  }

  /** The words of a message: its octets and `n` extra bits, zeros up to a whole word, its length in bits. */
  ghost function Padded(m: seq<Octet>, ub: Octet, n: nat): (p: seq<Octet>)
    requires n < 8
    ensures |p| % 4 == 0
  {
    var whole := if n == 0 then m else m + [Masked(ub, n)];
    UpToWord(|whole|);
    whole + Zeros(Missing(|whole|)) + OctetsBE(Wrap(8 * |m| + n), 8)
  }

  /** How many zero bits fill the last word. */
  function ZeroBits(k: nat, n: nat): nat
    requires n < 8
  {
    if n == 0 then 8 * Missing(k) else 8 - n + 8 * Missing(k + 1)
  }

  lemma ZeroBitsFewest(k: nat, n: nat, j: nat)
    requires n < 8
    ensures (8 * k + n + ZeroBits(k, n)) % 32 == 0
    ensures (8 * k + n + j) % 32 == 0 ==> ZeroBits(k, n) <= j
  {
    hide Missing, ZeroBits;
    var a, q := k / 4, k % 4;
    assert 8 * k + n + j == 32 * a + (8 * q + n + j);
    FillsWord(q, n);
    ZeroBitsOf(k, n);
    assert 8 * k + n + ZeroBits(k, n) == 32 * a + (8 * q + n + ZeroBits(q, n));
  }

  lemma ZeroBitsOf(k: nat, n: nat)
    requires n < 8
    ensures ZeroBits(k, n) == ZeroBits(k % 4, n)
  {
  }

  lemma FillsWord(q: nat, n: nat)
    requires q < 4 && n < 8
    ensures ZeroBits(q, n) < 32 && (8 * q + n + ZeroBits(q, n) == 0 || 8 * q + n + ZeroBits(q, n) == 32)
  {
  }

  lemma MaskedList(ub: Octet, n: nat, b: seq<bool>)
    requires n < 8 && b == BitsOf(true, ub)
    ensures BitsOf(true, Masked(ub, n)) == (
              if n == 0 then [false, false, false, false, false, false, false, false]
              else if n == 1 then [b[0], false, false, false, false, false, false, false]
              else if n == 2 then [b[0], b[1], false, false, false, false, false, false]
              else if n == 3 then [b[0], b[1], b[2], false, false, false, false, false]
              else if n == 4 then [b[0], b[1], b[2], b[3], false, false, false, false]
              else if n == 5 then [b[0], b[1], b[2], b[3], b[4], false, false, false]
              else if n == 6 then [b[0], b[1], b[2], b[3], b[4], b[5], false, false]
              else [b[0], b[1], b[2], b[3], b[4], b[5], b[6], false])
  {
  }

  /** The extra bits, and zeros up to the octet. */
  lemma {:induction false} MaskedBits(ub: Octet, n: nat)
    requires 0 < n < 8
    ensures BitsOf(true, Masked(ub, n)) == BitsOf(true, ub)[..n] + Falses(8 - n)
  {
    hide BitsOf, Masked, Falses;
    MaskedList(ub, n, BitsOf(true, ub));
    FewFalses();
  }

  /** Bit by bit: the message, its extra bits, as few zeros as fill the last word, the length in 64 bits. */
  lemma PaddedBits(m: seq<Octet>, ub: Octet, n: nat, j: nat)
    requires n < 8
    ensures Bits(true, Padded(m, ub, n))
              == Bits(true, m) + BitsOf(true, ub)[..n] + Falses(ZeroBits(|m|, n))
                 + Bits(true, OctetsBE(Wrap(8 * |m| + n), 8))
    ensures (8 * |m| + n + ZeroBits(|m|, n)) % 32 == 0
    ensures (8 * |m| + n + j) % 32 == 0 ==> ZeroBits(|m|, n) <= j
    ensures 8 * |m| + n < 0x1_0000_0000_0000_0000 ==> ValueBE(OctetsBE(Wrap(8 * |m| + n), 8)) == 8 * |m| + n
  {
    hide Bits, BitsOf, Falses, Zeros, Missing, Wrap, OctetsBE, ValueBE, Masked;
    ZeroBitsFewest(|m|, n, j);
    LengthBack(8 * |m| + n);
    var field := OctetsBE(Wrap(8 * |m| + n), 8);
    if n == 0 {
      BitsJoin(true, m + Zeros(Missing(|m|)), field);
      BitsJoin(true, m, Zeros(Missing(|m|)));
      BitsOfZeros(true, Missing(|m|));
      assert Bits(true, m) + BitsOf(true, ub)[..0] == Bits(true, m);
    } else {
      var z := Missing(|m| + 1);
      BitsJoin(true, m + [Masked(ub, n)] + Zeros(z), field);
      BitsJoin(true, m + [Masked(ub, n)], Zeros(z));
      BitsJoin(true, m, [Masked(ub, n)]);
      SingleBits(true, Masked(ub, n));
      MaskedBits(ub, n);
      BitsOfZeros(true, z);
      FalsesSplit(8 - n, 8 * z);
      Regrouped(Bits(true, m), BitsOf(true, ub)[..n], Falses(8 - n), Falses(8 * z));
    }
  }

  lemma Regrouped(a: seq<bool>, b: seq<bool>, c: seq<bool>, d: seq<bool>)
    ensures a + (b + c) + d == a + b + (c + d)
  {
  }

  lemma LengthBack(bits: nat)
    ensures bits < 0x1_0000_0000_0000_0000 ==> ValueBE(OctetsBE(Wrap(bits), 8)) == bits
  {
    hide OctetsBE, ValueBE;
    if bits < 0x1_0000_0000_0000_0000 {
      WrapUnique(bits, 0, bits);
      Power256Of8();
      ValueBEBack(bits, 8);
    }
  }

  lemma {:induction false} StepsOneMore(v: Variant, mix: Mix, s: seq<Word>, words: seq<Word>, q: Word)
    requires |s| == v.Size()
    ensures v.Steps(mix, s, words + [q]) == v.Step(mix, v.Steps(mix, s, words), q)
  {
    hide Variant.Step;
    assert (words + [q])[..|words|] == words;
  }

  lemma NothingTaken(v: Variant, mix: Mix, start: seq<Word>)
    requires |start| == v.Size()
    ensures View(start, Base(v, 0)) == v.Steps(mix, start, WordsBE([]))
  {
  }

  lemma AllOf(before: seq<Octet>, data: seq<Octet>, at: nat, rest: nat)
    requires at <= rest <= |data|
    ensures before + data[..at] + data[at..rest] + data[rest..] == before + data
  {
  }

  /** The octets set in `buf` are the padding of the message. */
  lemma {:induction false} PaddedPieces(m: seq<Octet>, ub: Octet, n: nat, held: nat, plen: nat, buf: seq<Octet>)
    requires n < 8 && held <= 4 && held <= |m| && (|m| - held) % 4 == 0 && plen <= 4 && |buf| == 16
    requires buf[4..12] == OctetsBE(Wrap(8 * |m| + n), 8)
    requires n == 0 ==> plen == (if held == 0 then 4 else held) && buf[plen..4] == Zeros(4 - plen)
    requires n != 0 ==> plen == held % 4 && buf[plen..4] == [Masked(ub, n)] + Zeros(3 - plen)
    ensures m + buf[plen..12] == Padded(m, ub, n)
  {
    hide Zeros, OctetsBE, Masked, Wrap, Missing;
    if n == 0 {
      MissingIs(|m|, held);
      Spliced(m, [], Zeros(Missing(|m|)), plen, buf);
    } else {
      MissingAfter(|m|, held);
      Spliced(m, [Masked(ub, n)], Zeros(Missing(|m| + 1)), plen, buf);
    }
  }

  lemma Spliced(m: seq<Octet>, extra: seq<Octet>, zeros: seq<Octet>, plen: nat, buf: seq<Octet>)
    requires plen <= 4 && |buf| == 16 && buf[plen..4] == extra + zeros
    ensures m + buf[plen..12] == m + extra + zeros + buf[4..12]
    ensures |extra| == 0 ==> m + extra == m
  {
    assert buf[plen..12] == buf[plen..4] + buf[4..12];
  }

  lemma MissingAfter(k: nat, held: nat)
    requires held <= 4 && held <= k && (k - held) % 4 == 0
    ensures Missing(k + 1) == 3 - held % 4
  {
  }

  lemma MissingIs(k: nat, held: nat)
    requires held <= 4 && held <= k && (k - held) % 4 == 0
    ensures Missing(k) == (4 - held) % 4
  {
  }

  /** After closing, the four octets held back are the last four of the buffer. */
  lemma OnlyJunkHeld(m: seq<Octet>, tail: seq<Octet>, held: nat)
    requires 4 <= |tail| && (|m| + |tail| - 4) % 4 == 0 && 0 < held <= 4
    requires (|m + tail| - held) % 4 == 0
    ensures held == 4
    ensures (m + tail)[..|m + tail| - held] == m + tail[..|tail| - 4]
  {
  }

  class Context {
    const v: Variant
    const mix: Mix
    const start: seq<Word>
    const words: array<Word>
    var partial: Word
    var partialLen: nat
    var roundShift: nat
    var bitCount: nat
    /** Everything written since the last initialisation. */
    ghost var written: seq<Octet>

    /** The words stand for the state after the words of `m`. */
    ghost predicate Took(m: seq<Octet>, r: nat)
      reads words
    {
      && words.Length == v.Size() && |start| == v.Size() && |m| % 4 == 0
      && r == (|m| / 4) % v.Cases()
      && View(words[..], Base(v, r)) == v.Steps(mix, start, WordsBE(m))
    }

    ghost predicate Valid()
      reads this, words
    {
      && partialLen <= 4 && partialLen <= |written|
      && Took(written[..|written| - partialLen], roundShift)
      && partial == Accumulate(0, written[|written| - partialLen..])
      && bitCount == Wrap(8 * |written|)
    }

    /** "fugue_init": zeros, then the initial values. */
    constructor (v: Variant, mix: Mix, zLen: nat, iv: seq<Word>)
      requires zLen + |iv| == v.Size()
      ensures Valid() && written == [] && fresh(words)
      ensures this.v == v && this.mix == mix && start == seq(zLen, i => 0) + iv
    {
      this.v, this.mix := v, mix;
      start := seq(zLen, i => 0) + iv;
      words := new Word[v.Size()];
      partial, partialLen, roundShift, bitCount := 0, 0, 0, 0;
      written := [];
      new;
      Fill(zLen, iv);
      NothingTaken(v, mix, start);
    }

    /** The initial words: zeros, then `iv`. */
    method Fill(zLen: nat, iv: seq<Word>)
      requires words.Length == zLen + |iv|
      modifies words
      ensures words[..] == seq(zLen, i => 0) + iv
    {
      for i := 0 to zLen
        invariant forall j :: 0 <= j < i ==> words[j] == 0
      {
        words[i] := 0;
      }
      for i := 0 to |iv|
        invariant forall j :: 0 <= j < zLen ==> words[j] == 0
        invariant forall j :: 0 <= j < i ==> words[zLen + j] == iv[j]
      {
        words[zLen + i] := iv[i];
      }
    }

    /** One more word is mixed in. */
    method TakeWord(ghost m: seq<Octet>, ghost w: seq<Octet>, r: nat, p: Word) returns (r': nat)
      requires Took(m, r) && |w| == 4 && p == WordBE(w)
      modifies words
      ensures Took(m + w, r')
    {
      hide View, Variant.Step, Variant.Steps, WordBE, WordsBE;
      OneMoreBE(m, w);
      StepsOneMore(v, mix, start, WordsBE(m), p);
      CaseAfter(|m|, v.Cases());
      r' := StepInPlace(v, mix, words, r, p);
    }

    /** The resumed loop: words are mixed in until at most four octets are left. */
    method TakeWords(data: seq<Octet>, from: nat, word: Word, ghost m: seq<Octet>, ghost w: seq<Octet>)
      returns (at: nat, r: nat, ghost taken: seq<Octet>)
      requires from <= |data| && Took(m, roundShift) && |w| == 4 && word == WordBE(w)
      modifies words
      ensures from <= at <= |data| && |data| - at <= 4 && (from < |data| ==> at < |data|)
      ensures taken == m + w + data[from..at] && Took(taken, r)
    {
      hide Took, WordBE;
      at, r := from, roundShift;
      var p := word;
      taken := m;
      ghost var held := w;
      while true
        invariant from <= at <= |data| && (from < |data| ==> at < |data|) && |held| == 4 && p == WordBE(held)
        invariant Took(taken, r) && taken + held == m + w + data[from..at]
        decreases |data| - at
      {
        r := TakeWord(taken, held, r, p);
        taken := taken + held;
        if |data| - at <= 4 {
          break;
        }
        held := data[at..at + 4];
        p := WordBE(data[at..at + 4]);
        at := at + 4;
        assert data[from..at] == data[from..at - 4] + held;
      }
    }

    /** "CORE_ENTRY" to "CORE_EXIT": only the octets matter, not how they are split into calls. */
    method Core(data: seq<Octet>)
      requires Valid()
      modifies this, words
      ensures Valid() && written == old(written) + data
      ensures |data| > 0 ==> partialLen > 0
    {
      hide Took, Accumulate, WordBE, Wrap, Shifted;
      bitCount := Wrap(bitCount + 8 * |data|);
      WrapAdd(8 * |written|, 8 * |data|);
      ghost var m := written[..|written| - partialLen];
      ghost var w := written[|written| - partialLen..];
      var p, plen, at := partial, partialLen, 0;
      if plen < 4 {
        var count := if |data| < 4 - plen then |data| else 4 - plen;
        plen := plen + count;
        p := ShiftIn(p, data[..count], w);
        at := count;
        w := w + data[..at];
        if at == |data| {
          Hold(p, plen, roundShift, m, w);
          assert data[..at] == data && m + w == old(written) + data;
          return;
        }
      }
      AccumulateWord(0, w);
      assert m + w == written + data[..at];
      var rest, r;
      rest, r, m := TakeWords(data, at, p, m, w);
      AccumulateNothing();
      p := ShiftIn(0, data[rest..], []);
      assert [] + data[rest..] == data[rest..];
      AllOf(old(written), data, at, rest);
      Hold(p, |data| - rest, r, m, data[rest..]);
    }

    /** The last assignments of a call: `w` is held back. */
    method Hold(p: Word, plen: nat, r: nat, ghost m: seq<Octet>, ghost w: seq<Octet>)
      requires Took(m, r) && |w| == plen <= 4 && p == Accumulate(0, w) && bitCount == Wrap(8 * |m + w|)
      modifies this
      ensures Valid() && written == m + w && partialLen == plen && roundShift == r
    {
      hide Took, Accumulate, Wrap;
      partial, partialLen, roundShift := p, plen, r;
      written := m + w;
      assert written[..|written| - plen] == m && written[|written| - plen..] == w;
    }

    /** What "CLOSE_ENTRY" writes before the counter; `plen` is where it then starts. */
    method PadWord(buf: array<Octet>, ub: Octet, n: nat) returns (plen: nat)
      requires buf.Length == 16 && n < 8 && partialLen <= 4
      modifies buf
      ensures plen <= 4 && buf[4..] == old(buf[4..])
      ensures n == 0 ==> plen == (if partialLen == 0 then 4 else partialLen) && buf[plen..4] == Zeros(4 - plen)
      ensures n != 0 ==> plen == partialLen % 4 && buf[plen..4] == [Masked(ub, n)] + Zeros(3 - plen)
    {
      hide Masked, Zeros;
      NoZeros();
      plen := partialLen;
      if plen == 0 && n == 0 {
        plen := 4;
      } else if plen < 4 || n != 0 {
        if plen == 4 {
          plen := 0;
        }
        MarkAndZeros(buf, plen, Masked(ub, n));
        NothingMasked(ub);
        assert n == 0 ==> [Masked(ub, n)] + Zeros(3 - plen) == Zeros(4 - plen);
      }
    }

    lemma NoZeros()
      ensures Zeros(0) == []
    {
    }

    method MarkAndZeros(buf: array<Octet>, at: nat, mark: Octet)
      requires buf.Length == 16 && at < 4
      modifies buf
      ensures buf[4..] == old(buf[4..]) && buf[at..4] == [mark] + Zeros(3 - at)
    {
      buf[at] := mark;
      for u := at + 1 to 4
        invariant buf[4..] == old(buf[4..]) && buf[at] == mark
        invariant forall j :: at < j < u ==> buf[j] == 0
      {
        buf[u] := 0;
      }
    }

    /** "sph_enc64be(buf + 4, ...)". */
    method PutCounter(buf: array<Octet>, count: nat)
      requires buf.Length == 16
      modifies buf
      ensures buf[4..12] == OctetsBE(count, 8)
    {
      hide OctetsBE;
      var b := OctetsBE(count, 8);
      for i := 0 to 8
        invariant forall j :: 0 <= j < i ==> buf[4 + j] == b[j]
      {
        buf[4 + i] := b[i];
      }
    }

    /** The octets "CLOSE_ENTRY" hands to the core: the padding, the counter, four that were never set. */
    method Tail(ub: Octet, n: nat) returns (tail: seq<Octet>)
      requires Valid() && n < 8
      ensures |tail| >= 12 && written + tail[..|tail| - 4] == Padded(written, ub, n)
    {
      hide Zeros, OctetsBE, Masked, Accumulate, Wrap, Padded, Took;
      var buf := new Octet[16];
      PutCounter(buf, Wrap(bitCount + n));
      WrapAdd(8 * |written|, n);
      assert buf[4..][..8] == OctetsBE(Wrap(8 * |written| + n), 8);
      var plen := PadWord(buf, ub, n);
      HeldIsShort();
      ghost var b := buf[..];
      assert b[4..12] == buf[4..][..8] && b[plen..4] == buf[plen..4];
      PaddedPieces(written, ub, n, partialLen, plen, b);
      tail := buf[plen..];
      assert tail[..|tail| - 4] == buf[plen..12];
    }

    lemma HeldIsShort()
      requires Valid()
      ensures partialLen <= 4 && partialLen <= |written| && (|written| - partialLen) % 4 == 0
    {
    }

    /** The state the final rounds start from: what was never set is only held back. */
    method CloseEntry(ub: Octet, n: nat) returns (final: seq<Word>)
      requires Valid() && n < 8
      modifies this, words
      ensures |start| == v.Size() && final == v.Steps(mix, start, WordsBE(Padded(old(written), ub, n)))
    {
      hide WordsBE, Padded, Variant.Steps, Valid;
      ghost var m := written;
      var tail := Tail(ub, n);
      Core(tail);
      HeldIsShort();
      OnlyJunkHeld(m, tail, partialLen);
      assert written[..|written| - partialLen] == Padded(m, ub, n);
      final := Unturned();
    }

    /** The two copies that give the words their first names again. */
    method Unturned() returns (final: seq<Word>)
      requires Valid()
      ensures partialLen <= 4 && partialLen <= |written| && |start| == v.Size()
      ensures final == v.Steps(mix, start, WordsBE(written[..|written| - partialLen]))
    {
      hide WordsBE, Accumulate, Wrap, Variant.Steps;
      var rms := roundShift * 3 * v.Turns();
      final := words[v.Size() - rms..] + words[..v.Size() - rms];
      assert final == View(words[..], Base(v, roundShift));
    }
  }

  /** However a message is split into calls, its padded words, and they alone, are mixed in. */
  method Absorbed(v: Variant, mix: Mix, zLen: nat, iv: seq<Word>, pieces: seq<seq<Octet>>, ub: Octet, n: nat)
    returns (final: seq<Word>)
    requires zLen + |iv| == v.Size() && n < 8
    ensures final == v.Steps(mix, seq(zLen, i => 0) + iv, WordsBE(Padded(Joined(pieces), ub, n)))
  {
    hide Variant.Steps, WordsBE, Padded, Context.Valid;
    var c := new Context(v, mix, zLen, iv);
    for i := 0 to |pieces|
      invariant c.Valid() && fresh(c) && fresh(c.words) && c.written == Joined(pieces[..i])
      invariant c.v == v && c.mix == mix && c.start == seq(zLen, i => 0) + iv
    {
      assert pieces[..i + 1][..i] == pieces[..i];
      c.Core(pieces[i]);
    }
    assert pieces[..|pieces|] == pieces;
    final := c.CloseEntry(ub, n);
  }
}
