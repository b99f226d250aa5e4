/** Base58: in-place conversion between base 256 and base 58, leading zeros kept one for one. */
module Base58 {
  import opened Types

  /** The alphabet, in two halves of 29 for the sake of the proofs. */
  const LOW_HALF: string := "123456789ABCDEFGHJKLMNPQRSTUV"
  const HIGH_HALF: string := "WXYZabcdefghijkmnopqrstuvwxyz"
  const ALPHABET: string := LOW_HALF + HIGH_HALF

  // ---------------------------------------------------------------------------------
  // Positional notation

  /** The two bases of the conversion. */
  type Base = b: nat | b == 58 || b == 256 witness 58

  function Pow(b: nat, n: nat): nat {
    if n == 0 then 1 else b * Pow(b, n - 1)
  }

  /** Value of big-endian digits. */
  function Val(b: nat, s: seq<nat>): nat {
    if s == [] then 0 else s[0] * Pow(b, |s| - 1) + Val(b, s[1..])
  }

  ghost predicate Below(b: nat, s: seq<nat>) {
    forall i :: 0 <= i < |s| ==> s[i] < b
  }

  /** The digits of `v`, big-endian, without leading zeros. */
  function Digits(b: Base, v: nat): seq<nat> {
    if v == 0 then [] else Division(b, v); Digits(b, v / b) + [v % b]
  }

  function Zeros(s: seq<nat>): nat {
    if s != [] && s[0] == 0 then 1 + Zeros(s[1..]) else 0
  }

  function Repeat<X>(x: X, n: nat): (r: seq<X>)
    ensures |r| == n && forall i :: 0 <= i < n ==> r[i] == x
  {
    seq(n, _ => x)
  }

  /** Change of base that keeps leading zeros as they are. */
  function Transcode(b: Base, b': Base, s: seq<nat>): seq<nat>
  {
    Repeat(0, Zeros(s)) + Digits(b', Val(b, s))
  }

  lemma {:induction false} ValSnoc(b: nat, s: seq<nat>, d: nat)
    ensures Val(b, s + [d]) == Val(b, s) * b + d
  {
    if s == [] {
    } else {
      ValSnoc(b, s[1..], d);
      assert (s + [d])[1..] == s[1..] + [d];
      SnocArithmetic(s[0], b, Pow(b, |s| - 1), Val(b, s[1..]), d);
    }
  }

  lemma SnocArithmetic(h: nat, b: nat, p: nat, v: nat, d: nat)
    ensures h * (b * p) + (v * b + d) == (h * p + v) * b + d
  {
    assert h * (b * p) == (h * p) * b;
    assert (h * p + v) * b == (h * p) * b + v * b;
  }

  lemma {:induction false} ValBelow(b: nat, s: seq<nat>)
    requires Below(b, s)
    ensures Val(b, s) < Pow(b, |s|)
  {
    if s == [] {
    } else {
      ValBelow(b, s[1..]);
      var p := Pow(b, |s| - 1);
      assert (s[0] + 1) * p <= b * p;
      assert (s[0] + 1) * p == s[0] * p + p;
    }
  }

  lemma {:induction false} ValDigits(b: Base, v: nat)
    ensures Val(b, Digits(b, v)) == v && Below(b, Digits(b, v))
    ensures Zeros(Digits(b, v)) == 0
  {
    if v == 0 {
    } else {
      Division(b, v);
      ValDigits(b, v / b);
      ValSnoc(b, Digits(b, v / b), v % b);
    }
  }

  lemma {:induction false} DigitsVal(b: Base, s: seq<nat>)
    requires Below(b, s) && Zeros(s) == 0
    ensures Digits(b, Val(b, s)) == s
  {
    if s == [] {
    } else {
      var n := |s| - 1;
      assert s == s[..n] + [s[n]];
      ValSnoc(b, s[..n], s[n]);
      var q := Val(b, s[..n]);
      assert Val(b, s) / b == q && Val(b, s) % b == s[n] by { QuotRem(q, b, s[n]); }
      DigitsVal(b, s[..n]);
      if q == 0 {
        assert s[..n] == [];
      }
    }
  }

  lemma Division(b: Base, v: nat)
    ensures v == (v / b) * b + v % b && v % b < b
    ensures v > 0 ==> v / b < v
  {
    if b == 58 {} else {}
  }

  lemma QuotRem(q: nat, b: Base, r: nat)
    requires r < b
    ensures (q * b + r) / b == q && (q * b + r) % b == r
  {
    if b == 58 {} else {}
  }

  // ---------------------------------------------------------------------------------
  // The size estimates suffice

  lemma {:induction false} PowAdd(b: nat, m: nat, n: nat)
    ensures Pow(b, m + n) == Pow(b, m) * Pow(b, n)
  {
    if m == 0 {
    } else {
      PowAdd(b, m - 1, n);
      assert b * (Pow(b, m - 1) * Pow(b, n)) == b * Pow(b, m - 1) * Pow(b, n);
    }
  }

  lemma {:induction false} PowPow(b: nat, m: nat, n: nat)
    ensures Pow(Pow(b, m), n) == Pow(b, m * n)
  {
    if n > 0 {
      PowPow(b, m, n - 1);
      PowAdd(b, m, m * (n - 1));
      assert m + m * (n - 1) == m * n;
    } else {
      assert m * 0 == 0;
    }
  }

  lemma {:induction false} PowGrows(b: nat, m: nat, n: nat)
    requires b > 0 && m <= n
    ensures 0 < Pow(b, m) <= Pow(b, n)
    decreases n
  {
    if n == 0 {
    } else {
      PowGrows(b, if m == n then m - 1 else m, n - 1);
      Times(1, b, Pow(b, n - 1), Pow(b, n - 1));
    }
  }

  lemma Times(a: nat, b: nat, c: nat, d: nat)
    requires a <= b && c <= d
    ensures a * c <= b * d
  {
    assert a * c <= b * c <= b * d;
  }

  lemma {:induction false} PowMono(x: nat, y: nat, k: nat)
    requires x <= y
    ensures Pow(x, k) <= Pow(y, k)
  {
    if k == 0 {
    } else {
      PowMono(x, y, k - 1);
      Times(x, y, Pow(x, k - 1), Pow(y, k - 1));
    }
  }

  lemma {:induction false} PowStrict(x: nat, y: nat, k: nat)
    requires x < y && k > 0
    ensures Pow(x, k) < Pow(y, k)
  {
    if k == 1 {
      assert Pow(x, 1) == x * Pow(x, 0) && Pow(y, 1) == y * Pow(y, 0);
    } else {
      PowStrict(x, y, k - 1);
      Times(x, y - 1, Pow(x, k - 1), Pow(y, k - 1));
      assert (y - 1) * Pow(y, k - 1) == y * Pow(y, k - 1) - Pow(y, k - 1);
    }
  }

  function Product(x: nat, y: nat): nat { x * y }

  lemma {:induction false} Exponents(b: nat, m: nat, n: nat, mn: nat)
    requires mn == Product(m, n) || mn == Product(n, m)
    ensures Pow(Pow(b, m), n) == Pow(b, mn)
  {
    PowPow(b, m, n);
  }

  /** From b^p <= c^q: n digits in base b fit in m digits in base c whenever n * q <= p * m. */
  lemma {:induction false} Room(b: nat, p: nat, c: nat, q: nat, n: nat, m: nat)
    requires p > 0 && c > 0 && Pow(b, p) <= Pow(c, q) && Product(n, q) <= Product(p, m)
    ensures Pow(b, n) <= Pow(c, m)
  {
    hide Pow, Product;
    Exponents(b, n, p, Product(n, p));
    Exponents(b, p, n, Product(n, p));
    Exponents(c, q, n, Product(n, q));
    Exponents(c, m, p, Product(p, m));
    PowMono(Pow(b, p), Pow(c, q), n);
    PowGrows(c, Product(n, q), Product(p, m));
    if Pow(b, n) > Pow(c, m) {
      PowStrict(Pow(c, m), Pow(b, n), p);
      assert false;
    }
  }

  /** Base-58 digits reserved for `n` bytes. */
  function EncodedSize(n: nat): nat { n * 138 / 100 + 1 }

  /** Bytes reserved for `n` base-58 digits. */
  function DecodedSize(n: nat): nat { n * 733 / 1000 + 1 }

  lemma Numeral(b: nat, m: nat, x: nat, n: nat, y: nat)
    requires Pow(b, m) == x && Pow(b, n) == y
    ensures Pow(b, m + n) == x * y
  {
    PowAdd(b, m, n);
  }

  lemma FewDigits()
    ensures Pow(58, 8) == 128063081718016 && Pow(58, 9) == 7427658739644928 && Pow(58, 3) == 195112
    ensures Pow(256, 6) == 0x1000000000000 && Pow(256, 8) == 0x10000000000000000
  {
    assert Pow(58, 1) == 58 * Pow(58, 0) && Pow(256, 1) == 256 * Pow(256, 0);
    Numeral(58, 1, 58, 1, 58);
    Numeral(58, 1, 58, 2, 3364);
    Numeral(58, 2, 3364, 2, 3364);
    Numeral(58, 4, 11316496, 4, 11316496);
    Numeral(58, 1, 58, 8, 128063081718016);
    Numeral(256, 1, 256, 1, 256);
    Numeral(256, 2, 0x10000, 2, 0x10000);
    Numeral(256, 2, 0x10000, 4, 0x1_0000_0000);
    Numeral(256, 4, 0x1_0000_0000, 4, 0x1_0000_0000);
  }

  lemma {:induction false} EncodedRoom(n: nat)
    ensures Pow(256, n) <= Pow(58, EncodedSize(n))
  {
    hide Pow;
    FewDigits();
    Numeral(58, 8, 128063081718016, 3, 195112);
    Room(256, 8, 58, 11, n, EncodedSize(n));
  }

  lemma SeventyOneDigits()
    ensures Pow(58, 71) <= Pow(256, 52)
  {
    hide Pow;
    FewDigits();
    Numeral(58, 9, 7427658739644928, 8, 128063081718016);
    Numeral(58, 9, 7427658739644928, 9, 7427658739644928);
    Numeral(58, 17, 951208868148684143308060622848, 18, 55170114352623680311867516125184);
    Numeral(58, 18, 55170114352623680311867516125184, 18, 55170114352623680311867516125184);
    Numeral(58, 35, 52478302028992644968172978478148648556151605660894866578604032, 36,
            3043741517681573408154032751732621616256793128331902261559033856);
    Numeral(256, 6, 0x1000000000000, 6, 0x1000000000000);
    Numeral(256, 12, 0x1000000000000000000000000, 8, 0x10000000000000000);
    Numeral(256, 12, 0x1000000000000000000000000, 20, 0x10000000000000000000000000000000000000000);
    Numeral(256, 20, 0x10000000000000000000000000000000000000000, 32,
            0x10000000000000000000000000000000000000000000000000000000000000000);
  }

  lemma {:induction false} DecodedRoom(n: nat)
    ensures Pow(58, n) <= Pow(256, DecodedSize(n))
  {
    hide Pow;
    SeventyOneDigits();
    Room(58, 71, 256, 52, n, DecodedSize(n));
  }

  // ---------------------------------------------------------------------------------
  // Round trip

  lemma {:induction false} ZerosSplit(b: nat, s: seq<nat>)
    ensures Zeros(s) <= |s| && s == Repeat(0, Zeros(s)) + s[Zeros(s)..]
    ensures Zeros(s[Zeros(s)..]) == 0 && Val(b, s[Zeros(s)..]) == Val(b, s)
  {
    hide Pow, Repeat;
    if s != [] && s[0] == 0 {
      ZerosSplit(b, s[1..]);
      assert s[1..][Zeros(s[1..])..] == s[Zeros(s)..];
      assert 0 * Pow(b, |s| - 1) == 0;
      assert s == [0] + s[1..];
    }
  }

  lemma {:induction false} ZerosOf(n: nat, t: seq<nat>)
    requires Zeros(t) == 0
    ensures Zeros(Repeat(0, n) + t) == n
  {
    if n > 0 {
      ZerosOf(n - 1, t);
      assert (Repeat(0, n) + t)[1..] == Repeat(0, n - 1) + t;
    } else {
      assert Repeat(0, n) + t == t;
    }
  }

  /** Changing base and back is the identity, leading zeros included. */
  lemma TranscodeBack(b: Base, b': Base, s: seq<nat>)
    requires Below(b, s)
    ensures Below(b', Transcode(b, b', s))
    ensures Transcode(b', b, Transcode(b, b', s)) == s
  {
    var z, v := Zeros(s), Val(b, s);
    ZerosSplit(b, s);
    ValDigits(b', v);
    var t := Transcode(b, b', s);
    ZerosOf(z, Digits(b', v));
    ZerosSplit(b', t);
    assert t[z..] == Digits(b', v);
    DigitsVal(b, s[z..]);
  }

  // ---------------------------------------------------------------------------------
  // The in-place pass

  /** "a = a * m + digit" on big-endian digits in base b, last digit first; the carry out is what did not fit. */
  method MultiplyAdd(a: array<nat>, b: Base, m: nat, digit: nat) returns (carry: nat)
    modifies a
    ensures Val(b, a[..]) + carry * Pow(b, a.Length) == old(Val(b, a[..])) * m + digit
    ensures old(Below(b, a[..])) ==> Below(b, a[..])
  {
    ghost var before := a[..];
    carry := digit;
    var i := a.Length;
    assert before[i..] == [] && a[i..] == [];
    while i > 0
      invariant 0 <= i <= a.Length
      invariant a[..i] == before[..i] && Below(b, a[i..])
      invariant Val(b, a[i..]) + carry * Pow(b, a.Length - i) == Val(b, before[i..]) * m + digit
    {
      i := i - 1;
      ghost var tail, c0 := a[i + 1..], carry;
      carry := carry + m * a[i];
      a[i] := carry % b;
      Division(b, carry);
      PassStep(b, m, digit, c0, before[i..], tail, carry / b, carry % b);
      assert a[i..] == [carry % b] + tail;
      carry := carry / b;
    }
    assert a[..] == a[0..] && before == before[0..];
  }

  /** One digit of the pass. */
  lemma {:induction false} PassStep(b: Base, m: nat, digit: nat, c0: nat, old': seq<nat>, tail: seq<nat>, q: nat,
        r: nat)
    requires old' != [] && |tail| == |old'| - 1
    requires q * b + r == c0 + m * old'[0]
    requires Val(b, tail) + c0 * Pow(b, |tail|) == Val(b, old'[1..]) * m + digit
    ensures Val(b, [r] + tail) + q * Pow(b, |old'|) == Val(b, old') * m + digit
  {
    var p, d, rest := Pow(b, |tail|), old'[0], Val(b, old'[1..]);
    assert ([r] + tail)[1..] == tail;
    PassArithmetic(b, p, q, r, c0, m, d, Val(b, tail), rest, digit);
  }

  lemma PassArithmetic(b: nat, p: nat, q: nat, r: nat, c0: nat, m: nat, d: nat, low: nat, rest: nat, digit: nat)
    requires q * b + r == c0 + m * d && low + c0 * p == rest * m + digit
    ensures r * p + low + q * (b * p) == (d * p + rest) * m + digit
  {
    assert q * (b * p) + r * p == (q * b + r) * p;
    assert (c0 + m * d) * p == c0 * p + (d * p) * m;
    assert (d * p + rest) * m == (d * p) * m + rest * m;
  }

  // ---------------------------------------------------------------------------------
  // Characters

  lemma LowIncreasing(i: nat)
    requires i < 28
    ensures LOW_HALF[i] < LOW_HALF[i + 1]
  {
  }

  lemma HighIncreasing(i: nat)
    requires i < 28
    ensures HIGH_HALF[i] < HIGH_HALF[i + 1]
  {
  }

  lemma {:induction false} AlphabetIncreasing(i: nat, j: nat)
    requires i < j < 58
    ensures ALPHABET[i] < ALPHABET[j]
    decreases j
  {
    hide *;
    Adjacent(j - 1);
    if i < j - 1 {
      AlphabetIncreasing(i, j - 1);
    }
  }

  lemma Adjacent(k: nat)
    requires k < 57
    ensures ALPHABET[k] < ALPHABET[k + 1]
  {
    if k < 28 {
      LowIncreasing(k);
    } else if k > 28 {
      HighIncreasing(k - 29);
    }
  }

  /** strchr: the first position of `ch`. */
  function IndexIn(ch: char, s: string): (r: Option<nat>)
    ensures r.Some? ==> r.value < |s| && s[r.value] == ch
    ensures r.None? <==> ch !in s
  {
    if s == [] then None
    else if s[0] == ch then Some(0)
    else match IndexIn(ch, s[1..]) case None => None case Some(i) => Some(i + 1)
  }

  /** The character of a digit, and the digit of a character. */
  function CharAt(d: nat): char
    requires d < 58
  {
    ALPHABET[d]
  }

  function DigitAt(ch: char): (r: Option<nat>)
    ensures r.Some? ==> r.value < 58 && CharAt(r.value) == ch
  {
    IndexIn(ch, ALPHABET)
  }

  /** The alphabet is the digits and letters but zero, capital I and O, and small l. */
  lemma AlphabetIs(ch: char)
    ensures ch in ALPHABET <==>
      || '1' <= ch <= '9'
      || ('A' <= ch <= 'Z' && ch != 'I' && ch != 'O')
      || ('a' <= ch <= 'z' && ch != 'l')
  {
    hide *;
    LowHalfIs(ch);
    HighHalfIs(ch);
    InHalves(ch);
  }

  lemma InHalves(ch: char)
    ensures ch in ALPHABET <==> ch in LOW_HALF || ch in HIGH_HALF
  {
  }

  lemma LowHalfIs(ch: char)
    ensures ch in LOW_HALF <==> '1' <= ch <= '9' || ('A' <= ch <= 'V' && ch != 'I' && ch != 'O')
  {
  }

  lemma HighHalfIs(ch: char)
    ensures ch in HIGH_HALF <==> 'W' <= ch <= 'Z' || ('a' <= ch <= 'z' && ch != 'l')
  {
  }

  lemma DigitOfChar(d: nat)
    requires d < 58
    ensures DigitAt(CharAt(d)) == Some(d)
  {
    assert ALPHABET[d] in ALPHABET;
    var e := DigitAt(CharAt(d)).value;
    if e < d { AlphabetIncreasing(e, d); }
    if d < e { AlphabetIncreasing(d, e); }
  }

  predicate InAlphabet(s: string) {
    forall i :: 0 <= i < |s| ==> DigitAt(s[i]).Some?
  }

  /** Digit values of a string over the alphabet. */
  function DigitsOf(s: string): (r: seq<nat>)
    requires InAlphabet(s)
    ensures |r| == |s| && Below(58, r)
    ensures forall i :: 0 <= i < |s| ==> CharAt(r[i]) == s[i]
  {
    seq(|s|, i requires 0 <= i < |s| => DigitAt(s[i]).value)
  }

  function CharsOf(d: seq<nat>): (r: string)
    requires Below(58, d)
    ensures |r| == |d| && forall i :: 0 <= i < |d| ==> r[i] == CharAt(d[i])
  {
    seq(|d|, i requires 0 <= i < |d| => CharAt(d[i]))
  }

  lemma DigitsOfChars(d: seq<nat>)
    requires Below(58, d)
    ensures InAlphabet(CharsOf(d)) && DigitsOf(CharsOf(d)) == d
  {
    hide DigitAt, CharAt;
    forall i | 0 <= i < |d| ensures DigitAt(CharsOf(d)[i]) == Some(d[i]) { DigitOfChar(d[i]); }
  }

  lemma CharsOfDigits(s: string)
    requires InAlphabet(s)
    ensures CharsOf(DigitsOf(s)) == s
  {
    hide CharAt, DigitAt;
  }

  // ---------------------------------------------------------------------------------
  // What encoding and decoding mean, and that they undo each other

  ghost function Encode(x: seq<Byte>): string {
    TranscodeBack(256, 58, x);
    CharsOf(Transcode(256, 58, x))
  }

  ghost function Decode(s: string): seq<Byte>
    requires InAlphabet(s)
  {
    TranscodeBack(58, 256, DigitsOf(s));
    Transcode(58, 256, DigitsOf(s))
  }

  lemma DecodeEncode(x: seq<Byte>)
    ensures InAlphabet(Encode(x)) && Decode(Encode(x)) == x
  {
    TranscodeBack(256, 58, x);
    DigitsOfChars(Transcode(256, 58, x));
  }

  lemma EncodeDecode(s: string)
    requires InAlphabet(s)
    ensures Encode(Decode(s)) == s
  {
    TranscodeBack(58, 256, DigitsOf(s));
    CharsOfDigits(s);
  }

  // ---------------------------------------------------------------------------------
  // The program

  lemma {:induction false} AllZero(b: nat, s: seq<nat>)
    requires forall i :: 0 <= i < |s| ==> s[i] == 0
    ensures Val(b, s) == 0
  {
    if s == [] {
    } else {
      AllZero(b, s[1..]);
    }
  }

  /** While the digits read number at most `n`, and `n` digits fit, a pass leaves no carry. */
  lemma {:induction false} NoCarry(b: Base, b': Base, read: seq<nat>, n: nat, size: nat, v: nat, carry: nat)
    requires Below(b, read) && |read| <= n && Pow(b, n) <= Pow(b', size)
    requires v + carry * Pow(b', size) == Val(b, read)
    ensures carry == 0
  {
    ValBelow(b, read);
    PowGrows(b, |read|, n);
    if carry > 0 {
      Times(1, carry, Pow(b', size), Pow(b', size));
      assert false;
    }
  }

  /** Skips the leading zeros of the digits. */
  method SkipZeros(a: array<nat>, ghost b: Base) returns (it: nat)
    requires Below(b, a[..])
    ensures it <= a.Length && a[it..] == Digits(b, Val(b, a[..]))
  {
    it := 0;
    while it < a.Length && a[it] == 0
      invariant it <= a.Length && it + Zeros(a[it..]) == Zeros(a[..])
    {
      assert a[it..][1..] == a[it + 1..];
      it := it + 1;
    }
    ZerosSplit(b, a[..]);
    DigitsVal(b, a[it..]);
  }

  method EncodeBase58(x: seq<Byte>) returns (str: string)
    ensures str == Encode(x)
  {
    hide CharAt, DigitAt;
    TranscodeBack(256, 58, x);
    var zeroes := 0;
    while zeroes < |x| && x[zeroes] == 0
      invariant 0 <= zeroes <= |x| && zeroes + Zeros(x[zeroes..]) == Zeros(x)
    {
      assert x[zeroes..][1..] == x[zeroes + 1..];
      zeroes := zeroes + 1;
    }
    ZerosSplit(256, x);
    var b58 := EncodeBytes(x[zeroes..]);
    var it := SkipZeros(b58, 58);
    str := Translate(Repeat('1', zeroes), b58, it);
    EncodeIs(x, zeroes, b58[it..]);
  }

  lemma {:induction false} EncodeIs(x: seq<Byte>, zeroes: nat, digits: seq<nat>)
    requires zeroes == Zeros(x) && digits == Digits(58, Val(256, x))
    ensures Below(58, digits) && Encode(x) == Repeat('1', zeroes) + CharsOf(digits)
  {
    hide CharAt, DigitAt;
    OneIsZero();
    TranscodeBack(256, 58, x);
    ValDigits(58, Val(256, x));
  }

  /** Appends the characters of the digits from `it` on. */
  method Translate(prefix: string, b58: array<nat>, it: nat) returns (str: string)
    requires it <= b58.Length && Below(58, b58[it..])
    ensures str == prefix + CharsOf(b58[it..])
  {
    hide CharAt, DigitAt;
    str := prefix;
    ghost var digits := b58[it..];
    for k := it to b58.Length
      invariant str == prefix + CharsOf(digits[..k - it])
    {
      assert digits[..k + 1 - it] == digits[..k - it] + [b58[k]];
      str := str + [CharAt(b58[k])];
    }
    assert digits[..b58.Length - it] == digits;
  }

  method NewZeros(n: nat, ghost b: Base) returns (a: array<nat>)
    ensures fresh(a) && a.Length == n && Below(b, a[..]) && Val(b, a[..]) == 0
  {
    a := new nat[n](_ => 0);
    AllZero(b, a[..]);
  }

  method EncodeBytes(x: seq<Byte>) returns (b58: array<nat>)
    ensures fresh(b58) && Below(58, b58[..]) && Val(58, b58[..]) == Val(256, x)
  {
    b58 := NewZeros(EncodedSize(|x|), 58);
    EncodedRoom(|x|);
    var p := 0;
    while p < |x|
      invariant 0 <= p <= |x|
      invariant Below(58, b58[..]) && Val(58, b58[..]) == Val(256, x[..p])
    {
      var carry := MultiplyAdd(b58, 58, 256, x[p]);
      assert x[..p + 1] == x[..p] + [x[p]];
      ValSnoc(256, x[..p], x[p]);
      NoCarry(256, 58, x[..p + 1], |x|, b58.Length, Val(58, b58[..]), carry);
      assert carry == 0;
      p := p + 1;
    }
    assert x[..p] == x;
  }

  // ---------------------------------------------------------------------------------
  // Decoding

  /** isspace, in the C locale. */
  predicate IsSpace(ch: char) {
    ch == ' ' || '\t' <= ch <= '\r'
  }

  /** Blank, tab, newline, vertical tab, form feed, carriage return. */
  lemma SpaceIs(ch: char)
    ensures IsSpace(ch) <==> ch as int in {9, 10, 11, 12, 13, 32}
  {
  }

  predicate AllSpace(s: string) {
    forall i :: 0 <= i < |s| ==> IsSpace(s[i])
  }

  /** A string as C sees it: up to the first NUL. */
  function CString(s: string): string {
    if s == [] || s[0] == '\0' then [] else [s[0]] + CString(s[1..])
  }

  /** It is a prefix without NUL, and ends at a NUL or with the string. */
  lemma {:induction false} CStringIs(s: string)
    ensures CString(s) <= s && '\0' !in CString(s)
    ensures |CString(s)| < |s| ==> s[|CString(s)|] == '\0'
    decreases |s|
  {
    if s == [] || s[0] == '\0' {
    } else {
      CStringIs(s[1..]);
    }
  }

  /** `c` is a word over the alphabet from `i` to `j`, with nothing but white space around it. */
  ghost predicate Word(c: string, i: nat, j: nat) {
    i <= j <= |c| && AllSpace(c[..i]) && InAlphabet(c[i..j]) && AllSpace(c[j..])
  }

  lemma AlphabetNoSpace(ch: char)
    requires DigitAt(ch).Some?
    ensures !IsSpace(ch)
  {
    var k := DigitAt(ch).value;
    if k > 0 {
      AlphabetIncreasing(0, k);
    }
  }

  /** A string is a word in at most one way, up to where an empty word stands. */
  lemma WordUnique(c: string, i: nat, j: nat, i': nat, j': nat)
    requires Word(c, i, j) && Word(c, i', j')
    ensures c[i..j] == c[i'..j']
  {
    hide CharAt, DigitAt;
    if i < j {
      WordChar(c, i, j, i);
      WordChar(c, i', j', i);
      WordChar(c, i, j, j - 1);
      WordChar(c, i', j', j - 1);
    }
    if i' < j' {
      WordChar(c, i, j, i');
      WordChar(c, i', j', i');
      WordChar(c, i, j, j' - 1);
      WordChar(c, i', j', j' - 1);
    }
  }

  /** Inside a word there are characters of the alphabet, outside it white space, never both. */
  lemma WordChar(c: string, i: nat, j: nat, k: nat)
    requires Word(c, i, j) && k < |c|
    ensures i <= k < j <==> !IsSpace(c[k])
    ensures i <= k < j <==> DigitAt(c[k]).Some?
  {
    hide CharAt, DigitAt;
    if i <= k < j {
      assert c[i..j][k - i] == c[k];
      AlphabetNoSpace(c[k]);
    } else {
      if k < i { assert c[..i][k] == c[k]; } else { assert c[j..][k - j] == c[k]; }
      if DigitAt(c[k]).Some? { AlphabetNoSpace(c[k]); }
    }
  }

  /** No word where anything follows white space after the first character. */
  lemma OneWordOnly(c: string, start: nat, q: nat, r: nat, i: nat, j: nat)
    requires start <= q < r < |c| && !IsSpace(c[start]) && IsSpace(c[q]) && !IsSpace(c[r])
    ensures !Word(c, i, j)
  {
    hide CharAt, DigitAt;
    if Word(c, i, j) {
      WordChar(c, i, j, start);
      WordChar(c, i, j, r);
      WordChar(c, i, j, q);
    }
  }

  /** DecodeBase58: accepts words, and only words, gives the bytes of the word and otherwise leaves the
      result vector as it was. */
  method DecodeBase58(str: string, vch0: seq<Byte>) returns (ok: bool, vch: seq<Byte>)
    ensures ok <==> exists i: nat, j: nat :: Word(CString(str), i, j)
    ensures ok ==> forall i: nat, j: nat :: Word(CString(str), i, j) ==> vch == Decode(CString(str)[i..j])
    ensures !ok ==> vch == vch0
  {
    hide Decode, InAlphabet, AllSpace, IsSpace, Zeros, Val;
    var c := CString(str);
    vch := vch0;
    var start := SkipSpace(c, 0);
    var b256, q, zeroes, found := ReadWord(c, start);
    if !found {
      forall i: nat, j: nat ensures !Word(c, i, j) { if Word(c, i, j) { WordChar(c, i, j, q); } }
      return false, vch;
    }
    var r := SkipSpace(c, q);
    if r != |c| {
      forall i: nat, j: nat ensures !Word(c, i, j) { OneWordOnly(c, start, q, r, i, j); }
      return false, vch;
    }
    assert Word(c, start, q) by { assert c[..start] == c[0..start] && c[q..r] == c[q..]; }
    var it := SkipZeros(b256, 256);
    vch := Repeat(0, zeroes) + b256[it..];
    assert vch == Decode(c[start..q]) by { DecodeIs(c[start..q], zeroes, b256[it..]); }
    forall i: nat, j: nat | Word(c, i, j) ensures c[i..j] == c[start..q] { WordUnique(c, i, j, start, q); }
    ok := true;
    assert Word(CString(str), start, q);
    assert exists i: nat, j: nat :: Word(CString(str), i, j);
  }

  lemma DecodeIs(s: string, zeroes: nat, digits: seq<nat>)
    requires InAlphabet(s) && zeroes == Zeros(DigitsOf(s)) && digits == Digits(256, Val(58, DigitsOf(s)))
    ensures Decode(s) == Repeat(0, zeroes) + digits
  {
  }

  method SkipSpace(c: string, from: nat) returns (p: nat)
    requires from <= |c|
    ensures from <= p <= |c| && AllSpace(c[from..p]) && (p < |c| ==> !IsSpace(c[p]))
  {
    p := from;
    while p < |c| && IsSpace(c[p])
      invariant from <= p <= |c| && AllSpace(c[from..p])
    {
      assert c[from..p + 1] == c[from..p] + [c[p]];
      p := p + 1;
    }
  }

  /** The digits of the word at `p`: leading ones counted, the rest accumulated, up to white space or the
      end. Fails at a character that is neither. */
  method ReadWord(c: string, p: nat) returns (b256: array<nat>, q: nat, zeroes: nat, ok: bool)
    requires p <= |c|
    ensures p <= q <= |c| && InAlphabet(c[p..q])
    ensures !ok ==> q < |c| && !IsSpace(c[q]) && DigitAt(c[q]).None?
    ensures ok ==> (q < |c| ==> IsSpace(c[q])) && Below(256, b256[..])
    ensures ok ==> Zeros(DigitsOf(c[p..q])) == zeroes && Val(256, b256[..]) == Val(58, DigitsOf(c[p..q]))
  {
    hide CharAt, DigitAt;
    zeroes := 0;
    while p + zeroes < |c| && c[p + zeroes] == '1'
      invariant p + zeroes <= |c| && forall k :: p <= k < p + zeroes ==> c[k] == '1'
    {
      zeroes := zeroes + 1;
    }
    b256, q, ok := ReadDigits(c, p + zeroes);
    LeadingOnes(c, p, p + zeroes, q);
  }

  method ReadDigits(c: string, start: nat) returns (b256: array<nat>, q: nat, ok: bool)
    requires start <= |c|
    ensures start <= q <= |c| && InAlphabet(c[start..q])
    ensures !ok ==> q < |c| && !IsSpace(c[q]) && DigitAt(c[q]).None?
    ensures ok ==> (q < |c| ==> IsSpace(c[q]))
    ensures Below(256, b256[..]) && Val(256, b256[..]) == Val(58, DigitsOf(c[start..q]))
  {
    hide DigitAt, Val, Zeros, IsSpace, DigitsOf, Pow, InAlphabet;
    q := start;
    b256 := NewZeros(DecodedSize(|c| - start), 256);
    DecodedRoom(|c| - start);
    EmptyWord(c, start);
    while q < |c| && !IsSpace(c[q])
      invariant start <= q <= |c| && InAlphabet(c[start..q]) && Below(256, b256[..])
      invariant Val(256, b256[..]) == Val(58, DigitsOf(c[start..q]))
    {
      var ch := DigitAt(c[q]);
      if ch.None? {
        return b256, q, false;
      }
      AddDigit(b256, c, start, q, ch.value);
      q := q + 1;
    }
    ok := true;
  }

  lemma EmptyWord(c: string, start: nat)
    requires start <= |c|
    ensures InAlphabet(c[start..start]) && Val(58, DigitsOf(c[start..start])) == 0
  {
  }

  /** Apply "b256 = b256 * 58 + ch". */
  method AddDigit(b256: array<nat>, ghost c: string, ghost start: nat, ghost q: nat, d: nat)
    requires start <= q < |c| && InAlphabet(c[start..q]) && DigitAt(c[q]) == Some(d)
    requires Pow(58, |c| - start) <= Pow(256, b256.Length)
    requires Below(256, b256[..]) && Val(256, b256[..]) == Val(58, DigitsOf(c[start..q]))
    modifies b256
    ensures InAlphabet(c[start..q + 1])
    ensures Below(256, b256[..]) && Val(256, b256[..]) == Val(58, DigitsOf(c[start..q + 1]))
  {
    hide Val, Pow, DigitAt, InAlphabet;
    var carry := MultiplyAdd(b256, 256, 58, d);
    DigitPass(c, start, q, d, b256.Length, Val(256, b256[..]), carry);
    assert carry == 0;
  }

  /** One more character read: the pass leaves no carry and the value of the longer word. */
  lemma {:induction false} DigitPass(c: string, start: nat, q: nat, d: nat, size: nat, v: nat, carry: nat)
    requires start <= q < |c| && InAlphabet(c[start..q]) && DigitAt(c[q]) == Some(d)
    requires Pow(58, |c| - start) <= Pow(256, size)
    requires v + carry * Pow(256, size) == Val(58, DigitsOf(c[start..q])) * 58 + d
    ensures carry == 0 && InAlphabet(c[start..q + 1]) && v == Val(58, DigitsOf(c[start..q + 1]))
  {
    hide CharAt, DigitAt, Val, Pow;
    OneMoreDigit(c, start, q);
    ValSnoc(58, DigitsOf(c[start..q]), d);
    NoCarry(58, 256, DigitsOf(c[start..q + 1]), |c| - start, size, v, carry);
  }

  lemma OneMoreDigit(c: string, start: nat, q: nat)
    requires start <= q < |c| && InAlphabet(c[start..q]) && DigitAt(c[q]).Some?
    ensures InAlphabet(c[start..q + 1])
    ensures DigitsOf(c[start..q + 1]) == DigitsOf(c[start..q]) + [DigitAt(c[q]).value]
  {
    hide CharAt, DigitAt;
    assert c[start..q + 1] == c[start..q] + [c[q]];
  }

  lemma OneIsZero()
    ensures DigitAt('1') == Some(0) && CharAt(0) == '1'
  {
    assert ALPHABET[0] == '1';
  }

  /** Leading ones are leading zero digits. */
  lemma LeadingOnes(c: string, p: nat, start: nat, q: nat)
    requires p <= start <= q <= |c| && InAlphabet(c[start..q])
    requires forall k :: p <= k < start ==> c[k] == '1'
    requires start < q ==> c[start] != '1'
    ensures InAlphabet(c[p..q]) && Zeros(DigitsOf(c[p..q])) == start - p
    ensures Val(58, DigitsOf(c[p..q])) == Val(58, DigitsOf(c[start..q]))
  {
    hide CharAt, DigitAt;
    OneIsZero();
    assert c[p..q] == c[p..start] + c[start..q];
    assert forall k :: 0 <= k < start - p ==> c[p..start][k] == c[p + k];
    var t, s := DigitsOf(c[start..q]), DigitsOf(c[p..q]);
    if start < q {
      assert c[start..q][0] == c[start];
      assert CharAt(0) == '1' && CharAt(t[0]) == c[start];
    }
    assert s == Repeat(0, start - p) + t;
    ZerosOf(start - p, t);
    ZerosSplit(58, s);
    assert s[start - p..] == t;
  }

  /** What encoding produces is a word for decoding, so the two methods undo each other on every byte string. */
  lemma EncodedIsWord(x: seq<Byte>)
    ensures CString(Encode(x)) == Encode(x) && Word(Encode(x), 0, |Encode(x)|)
    ensures InAlphabet(Encode(x)) && Decode(Encode(x)[0..|Encode(x)|]) == x
  {
    hide DigitAt, CharAt;
    var s := Encode(x);
    DecodeEncode(x);
    assert s[0..|s|] == s;
    NoNul(s);
  }

  lemma {:induction false} NoNul(s: string)
    requires InAlphabet(s)
    ensures CString(s) == s
  {
    hide DigitAt, CharAt;
    if s == [] {
    } else {
      NotNul(s[0]);
      NoNul(s[1..]);
      assert s == [s[0]] + s[1..];
    }
  }

  lemma NotNul(ch: char)
    requires DigitAt(ch).Some?
    ensures ch != '\0'
  {
    var k := DigitAt(ch).value;
    if k > 0 {
      AlphabetIncreasing(0, k);
    }
  }
}
