/** Multi-signature scripts: how they are recognised and how their keys are packed. */
module MultiSig {
  import opened LittleEndian
  import opened Types

  // ---------------------------------------------------------------------------------
  // Scripts

  /** Opcodes that push the octets that follow them. */
  predicate Pushes(c: Byte) {
    0 < c < 79
  }

  /** How many octets of a push come before its data. */
  function HeaderLength(c: Byte): (n: nat)
    requires Pushes(c)
    ensures 1 <= n <= 5
  {
    if c <= 75 then 1 else if c == 76 then 2 else if c == 77 then 3 else 5
  }

  /** How many octets a push announces. */
  function DataLength(s: seq<Byte>, p: nat): nat
    requires p < |s| && Pushes(s[p]) && p + HeaderLength(s[p]) <= |s|
  {
    var c: int := s[p];
    if c <= 75 then c
    else
      var d0: int := s[p + 1];
      if c == 76 then d0
      else
        var d1: int := s[p + 2];
        if c == 77 then d0 + 0x100 * d1
        else
          var d2: int := s[p + 3];
          var d3: int := s[p + 4];
          d0 + 0x100 * d1 + 0x1_0000 * d2 + 0x100_0000 * d3
  }

  const LONGEST_PUSH := 0x8_0000

  /** The push at `p` runs to `q`. */
  predicate PushAt(s: seq<Byte>, p: nat, q: nat) {
    && p < |s| && Pushes(s[p]) && p + HeaderLength(s[p]) <= |s|
    && DataLength(s, p) <= LONGEST_PUSH
    && q == p + HeaderLength(s[p]) + DataLength(s, p)
  }

  /** The header at `p` runs to `q`, and announces more than any push may have. */
  predicate OversizeAt(s: seq<Byte>, p: nat, q: nat) {
    && p < |s| && Pushes(s[p]) && p + HeaderLength(s[p]) <= |s|
    && DataLength(s, p) > LONGEST_PUSH
    && q == p + HeaderLength(s[p])
  }

  /** From `p`, pushes that end one after the other at `ends`, each before the end of the script. */
  predicate PushesAt(s: seq<Byte>, p: nat, ends: seq<nat>)
    decreases |ends|
  {
    |ends| == 0 || (PushAt(s, p, ends[0]) && ends[0] < |s| && PushesAt(s, ends[0], ends[1..]))
  }

  function Last(p: nat, ends: seq<nat>): nat {
    if |ends| == 0 then p else ends[|ends| - 1]
  }

  /** "OP_m", `n` pushes, "OP_n", "OP_CHECKMULTISIG". An oversize header before "OP_n" is skipped. */
  ghost predicate IsScript(s: seq<Byte>, m: int, n: int, ends: seq<nat>) {
    && |s| > 5 && 1 <= m <= n <= 16 && |ends| == n
    && s[0] == 0x50 + m && PushesAt(s, 1, ends)
    && s[|s| - 2] == 0x50 + n && s[|s| - 1] == 0xAE
    && (Last(1, ends) == |s| - 2 || OversizeAt(s, Last(1, ends), |s| - 2))
  }

  lemma {:induction false} PushesMore(s: seq<Byte>, p: nat, ends: seq<nat>, q: nat)
    requires PushesAt(s, p, ends) && PushAt(s, Last(p, ends), q) && q < |s|
    ensures PushesAt(s, p, ends + [q])
    decreases |ends|
  {
    if |ends| == 0 {
      assert [q][1..] == [];
    } else {
      PushesMore(s, ends[0], ends[1..], q);
      assert (ends + [q])[1..] == ends[1..] + [q];
    }
  }

  /** Two readings of the pushes of a script agree as far as both go. */
  lemma {:induction false} PushesAgree(s: seq<Byte>, p: nat, a: seq<nat>, b: seq<nat>)
    requires PushesAt(s, p, a) && PushesAt(s, p, b) && |a| <= |b|
    ensures a == b[..|a|]
    ensures |a| < |b| ==> PushAt(s, Last(p, a), b[|a|]) && b[|a|] < |s|
    decreases |a|
  {
    if |a| == 0 {
    } else {
      PushesAgree(s, a[0], a[1..], b[1..]);
      assert b[..|a|] == [b[0]] + b[1..][..|a| - 1];
    }
  }

  // ---------------------------------------------------------------------------------
  // Recognition

  /** What is read as a key: the twenty octets before the end of each push. */
  function KeysAt(mem: seq<Byte>, start: nat, ends: seq<nat>): (keys: seq<seq<Byte>>)
    requires start >= 20 && forall i :: 0 <= i < |ends| ==> start + ends[i] <= |mem|
    ensures |keys| == |ends|
    ensures forall i :: 0 <= i < |ends| ==> keys[i] == mem[start + ends[i] - 20..start + ends[i]]
  {
    seq(|ends|, i requires 0 <= i < |ends| => mem[start + ends[i] - 20..start + ends[i]])
  }

  lemma KeysMore(mem: seq<Byte>, start: nat, ends: seq<nat>, e: nat)
    requires start >= 20 && (forall i :: 0 <= i < |ends| ==> start + ends[i] <= |mem|) && start + e <= |mem|
    ensures KeysAt(mem, start, ends + [e]) == KeysAt(mem, start, ends) + [mem[start + e - 20..start + e]]
  {
  }

  lemma NoKeys(mem: seq<Byte>, start: nat, s: seq<Byte>)
    requires start >= 20
    ensures KeysAt(mem, start, []) == [] && PushesAt(s, 1, [])
  {
  }

  /** The octet at `p` of the script at `start`. Reading may go past the end of the script. */
  function Peek(mem: seq<Byte>, start: nat, p: nat): Byte
    requires start + p < |mem|
  {
    mem[start + p]
  }

  /**
   * "getOpPushData": steps over a push. An oversize header is stepped over too, but is not
   * taken for a push.
   */
  method GetOpPushData(mem: seq<Byte>, start: nat, p0: nat, ghost size: nat) returns (ok: bool, p: nat)
    requires start + p0 + 5 <= |mem| && p0 < size && start + size <= |mem|
    ensures p0 <= p && (ok ==> p0 < p)
    ensures var s := mem[start..start + size];
            && (!Pushes(s[p0]) ==> !ok && p == p0)
            && (Pushes(s[p0]) && p0 + HeaderLength(s[p0]) > size ==> p >= size)
            && (Pushes(s[p0]) && p0 + HeaderLength(s[p0]) <= size ==>
                  if ok then PushAt(s, p0, p) else OversizeAt(s, p0, p))
  {
    ghost var s := mem[start..start + size];
    assert forall k :: 0 <= k < size ==> s[k] == mem[start + k];
    p := p0 + 1;
    var c := Peek(mem, start, p0);
    if !(0 < c < 79) {
      p := p - 1;
      return false, p;
    }
    var dataSize: nat;
    if c <= 75 {
      dataSize := c;
    } else if c == 76 {
      dataSize := Peek(mem, start, p);
      p := p + 1;
    } else if c == 77 {
      dataSize := Peek(mem, start, p) + 0x100 * Peek(mem, start, p + 1);
      p := p + 2;
    } else {
      dataSize := Peek(mem, start, p) + 0x100 * Peek(mem, start, p + 1) + 0x1_0000 * Peek(mem, start, p + 2)
                  + 0x100_0000 * Peek(mem, start, p + 3);
      p := p + 4;
    }
    if 512 * 1024 < dataSize {
      return false, p;
    }
    p := p + dataSize;
    ok := true;
  }

  /** What the pushes read so far leave of any reading of the whole script. */
  lemma {:induction false} Continues(s: seq<Byte>, ends: seq<nat>, m: int, n: int, all: seq<nat>)
    requires PushesAt(s, 1, ends) && IsScript(s, m, n, all)
    ensures |ends| <= |all| && ends == all[..|ends|]
    ensures var p := Last(1, ends);
            if |ends| < |all| then PushAt(s, p, all[|ends|]) && all[|ends|] < |s|
            else p == |s| - 2 || OversizeAt(s, p, |s| - 2)
  {
    if |all| < |ends| {
      PushesAgree(s, 1, all, ends);
      assert false;
    } else {
      PushesAgree(s, 1, ends, all);
      assert all[..|all|] == all;
    }
  }

  /** The loop of "isMultiSig": keys are collected until something is no push. */
  method ReadKeys(mem: seq<Byte>, start: nat, scriptSize: nat, before: seq<seq<Byte>>)
    returns (failed: bool, p: nat, count: nat, addresses: seq<seq<Byte>>, ghost ends: seq<nat>)
    requires start >= 20 && start + scriptSize + 5 <= |mem| && scriptSize > 5
    ensures var s := mem[start..start + scriptSize];
            && (failed ==> forall m, n, all :: !IsScript(s, m, n, all))
            && (!failed ==>
                  && p < scriptSize && count == |ends| && PushesAt(s, 1, ends)
                  && ((p == Last(1, ends) && !Pushes(s[p])) || OversizeAt(s, Last(1, ends), p))
                  && (forall i :: 0 <= i < |ends| ==> ends[i] < |s|)
                  && addresses == before + KeysAt(mem, start, ends))
  {
    hide IsScript, PushesAt, PushAt, OversizeAt, KeysAt;
    ghost var s := mem[start..start + scriptSize];
    p, count, addresses, ends, failed := 1, 0, before, [], false;
    NoKeys(mem, start, s);
    while true
      invariant 1 <= p < scriptSize && p == Last(1, ends) && count == |ends| && PushesAt(s, 1, ends)
      invariant forall i :: 0 <= i < |ends| ==> ends[i] < |s|
      invariant addresses == before + KeysAt(mem, start, ends)
      decreases scriptSize - p
    {
      var pushed;
      pushed, p := GetOpPushData(mem, start, p, scriptSize);
      if scriptSize <= p {
        OutOfBounds(s, ends, p, pushed);
        failed := true;
        return;
      }
      if !pushed {
        return;
      }
      addresses := addresses + [mem[start + p - 20..start + p]];
      KeysMore(mem, start, ends, p);
      PushesMore(s, 1, ends, p);
      ends := ends + [p];
      count := count + 1;
    }
  }

  /** A push that does not end before the script does cannot be part of one. */
  lemma {:induction false} OutOfBounds(s: seq<Byte>, ends: seq<nat>, p: nat, pushed: bool)
    requires |s| > 5 && PushesAt(s, 1, ends) && Last(1, ends) < |s| <= p && Pushes(s[Last(1, ends)])
    requires Last(1, ends) + HeaderLength(s[Last(1, ends)]) <= |s| ==>
               if pushed then PushAt(s, Last(1, ends), p) else OversizeAt(s, Last(1, ends), p)
    ensures forall m, n, all :: !IsScript(s, m, n, all)
  {
    forall m, n, all | IsScript(s, m, n, all) ensures false {
      Continues(s, ends, m, n, all);
    }
  }

  /**
   * "isMultiSig": exact, and decided by the script alone although the octets around it may
   * be read.
   */
  method IsMultiSig(mem: seq<Byte>, start: nat, scriptSize: nat, before: seq<seq<Byte>>)
    returns (ok: bool, m: int, n: int, addresses: seq<seq<Byte>>, ghost ends: seq<nat>)
    requires start >= 20 && start + scriptSize + 5 <= |mem|
    ensures var s := mem[start..start + scriptSize];
            && (ok ==> IsScript(s, m, n, ends) && (forall i :: 0 <= i < |ends| ==> ends[i] < |s|)
                       && addresses == before + KeysAt(mem, start, ends))
            && (!ok ==> forall m', n', ends' :: !IsScript(s, m', n', ends'))
  {
    hide PushesAt, KeysAt, OversizeAt;
    ghost var s := mem[start..start + scriptSize];
    addresses, ends := before, [];
    ok, m, n := false, 0, 0;
    if scriptSize <= 5 {
      return;
    }
    m := Peek(mem, start, 0) - 0x50;
    if !(1 <= m <= 16) {
      return;
    }
    var failed, p, count;
    failed, p, count, addresses, ends := ReadKeys(mem, start, scriptSize, before);
    if failed {
      return;
    }
    n := Peek(mem, start, p) - 0x50;
    var lastOp := Peek(mem, start, p + 1);
    assert s[0] == 0x50 + m && s[p] == 0x50 + n && (p + 1 < scriptSize ==> s[p + 1] == lastOp);
    var isNValid := 1 <= n <= 16;
    if !isNValid || n != count {
      Refused(s, ends, p, m, n);
      return;
    }
    ok := 0xAE == lastOp && m <= n && p + 2 == scriptSize;
    if !ok {
      Refused(s, ends, p, m, n);
    }
  }

  /** When all pushes are read and the rest does not match, the script is none. */
  lemma {:induction false} Refused(s: seq<Byte>, ends: seq<nat>, p: nat, m: int, n: int)
    requires |s| > 5 && PushesAt(s, 1, ends) && p < |s|
    requires (p == Last(1, ends) && !Pushes(s[p])) || OversizeAt(s, Last(1, ends), p)
    requires s[0] == 0x50 + m && s[p] == 0x50 + n
    requires !(1 <= n <= 16 && n == |ends| && 1 <= m <= n && p + 2 == |s| && s[|s| - 1] == 0xAE)
    ensures forall m', n', all :: !IsScript(s, m', n', all)
  {
    forall m', n', all | IsScript(s, m', n', all) ensures false {
      Continues(s, ends, m', n', all);
    }
  }

  // ---------------------------------------------------------------------------------
  // Packing

  /** "Compare160": byte by byte, and true of equal keys. */
  predicate Leq(a: seq<Byte>, b: seq<Byte>) {
    |a| == 0 || (|b| > 0 && (a[0] < b[0] || (a[0] == b[0] && Leq(a[1..], b[1..]))))
  }

  /** The number that a key is, its first octet the heaviest. */
  function NumberOf(a: seq<Byte>): nat {
    if |a| == 0 then 0 else 256 * NumberOf(a[..|a| - 1]) + a[|a| - 1] as int
  }

  function Power256(k: nat): (p: nat)
    ensures p > 0
  {
    if k == 0 then 1 else 256 * Power256(k - 1)
  }

  lemma {:induction false} NumberFirst(a: seq<Byte>)
    requires |a| > 0
    ensures NumberOf(a) == a[0] as int * Power256(|a| - 1) + NumberOf(a[1..]) && NumberOf(a) < Power256(|a|)
    decreases |a|
  {
    var n := |a| - 1;
    if n == 0 {
      assert a[..0] == [] && a[1..] == [];
      assert Power256(1) == 256;
    } else {
      NumberFirst(a[..n]);
      assert a[..n][1..] == a[1..][..n - 1];
      assert 256 * (a[0] as int * Power256(n - 1)) == a[0] as int * (256 * Power256(n - 1));
    }
  }

  /** The order of the keys is that of the numbers they are. */
  lemma {:induction false} LeqByNumber(a: seq<Byte>, b: seq<Byte>)
    requires |a| == |b|
    ensures Leq(a, b) <==> NumberOf(a) <= NumberOf(b)
    decreases |a|
  {
    hide NumberOf, Power256;
    if |a| == 0 {
    } else {
      NumberFirst(a);
      NumberFirst(b);
      LeqByNumber(a[1..], b[1..]);
      NumberBounds(a[1..]);
      NumberBounds(b[1..]);
      HeavierFirst(a[0], b[0], Power256(|a| - 1), NumberOf(a[1..]), NumberOf(b[1..]));
    }
  }

  lemma {:induction false} NumberBounds(a: seq<Byte>)
    ensures NumberOf(a) < Power256(|a|)
  {
    if |a| > 0 {
      NumberFirst(a);
    }
  }

  lemma HeavierFirst(x: nat, y: nat, p: nat, r: nat, t: nat)
    requires r < p && t < p
    ensures x < y ==> x * p + r < y * p + t
    ensures x == y ==> (x * p + r <= y * p + t <==> r <= t)
    ensures y < x ==> y * p + t < x * p + r
  {
    if x < y {
      OneMoreTime(x, y, p);
    } else if y < x {
      OneMoreTime(y, x, p);
    }
  }

  lemma OneMoreTime(x: nat, y: nat, p: nat)
    requires x < y
    ensures x * p + p <= y * p
  {
    var d := y - x - 1;
    assert y * p == (x + 1 + d) * p == x * p + p + d * p;
  }

  lemma {:induction false} LeqAntisymmetric(a: seq<Byte>, b: seq<Byte>)
    requires |a| == |b| && Leq(a, b) && Leq(b, a)
    ensures a == b
  {
    if |a| == 0 {
    } else {
      LeqAntisymmetric(a[1..], b[1..]);
      assert a == [a[0]] + a[1..] && b == [b[0]] + b[1..];
    }
  }

  /** No key comes before a smaller one. */
  ghost predicate Ascending(keys: seq<seq<Byte>>) {
    forall i, j :: 0 <= i < j < |keys| ==> Leq(keys[i], keys[j])
  }

  ghost predicate Keys20(keys: seq<seq<Byte>>) {
    forall i :: 0 <= i < |keys| ==> |keys[i]| == 20
  }

  lemma WithoutFirst(a: seq<seq<Byte>>)
    requires |a| > 0
    ensures a == [a[0]] + a[1..] && multiset(a[1..]) == multiset(a) - multiset{a[0]}
  {
    assert a == [a[0]] + a[1..];
  }

  lemma SameFirst(a: seq<seq<Byte>>, b: seq<seq<Byte>>)
    requires Ascending(a) && Ascending(b) && Keys20(a) && Keys20(b) && multiset(a) == multiset(b) && |a| > 0
    ensures |b| > 0 && a[0] == b[0]
  {
    hide Leq;
    assert a[0] in multiset(b);
    assert b[0] in multiset(a);
    var i :| 0 <= i < |b| && b[i] == a[0];
    var j :| 0 <= j < |a| && a[j] == b[0];
    LeqReflexive(a[0]);
    LeqAntisymmetric(a[0], b[0]);
  }

  /** There is one way to put keys in ascending order. */
  lemma {:induction false} AscendingUnique(a: seq<seq<Byte>>, b: seq<seq<Byte>>)
    requires Ascending(a) && Ascending(b) && Keys20(a) && Keys20(b) && multiset(a) == multiset(b)
    ensures a == b
    decreases |a|
  {
    hide Leq;
    if |a| == 0 {
      assert |multiset(b)| == 0;
    } else {
      SameFirst(a, b);
      WithoutFirst(a);
      WithoutFirst(b);
      AscendingUnique(a[1..], b[1..]);
    }
  }

  lemma {:induction false} LeqReflexive(a: seq<Byte>)
    ensures Leq(a, a)
  {
    if |a| == 0 {
    } else {
      LeqReflexive(a[1..]);
    }
  }

  function Concat(keys: seq<seq<Byte>>): seq<Byte> {
    if |keys| == 0 then [] else Concat(keys[..|keys| - 1]) + keys[|keys| - 1]
  }

  /** What a sort must do: put the keys in ascending order, losing and adding none. */
  ghost predicate Sorts(sort: seq<seq<Byte>> -> seq<seq<Byte>>) {
    forall keys :: Keys20(keys) ==> Ascending(sort(keys)) && multiset(sort(keys)) == multiset(keys)
  }

  /** "packMultiSig" up to the hash: m, n, then the sorted keys. */
  method PackMultiSig(sort: seq<seq<Byte>> -> seq<seq<Byte>>, addresses: seq<seq<Byte>>, m: Byte, n: Byte)
    returns (data: seq<Byte>)
    ensures data == [m, n] + Concat(sort(addresses))
  {
    var sorted := sort(addresses);
    data := [];
    data := data + [m];
    data := data + [n];
    for i := 0 to |sorted|
      invariant data == [m, n] + Concat(sorted[..i])
    {
      data := data + sorted[i];
      assert sorted[..i + 1][..i] == sorted[..i];
    }
    assert sorted[..|sorted|] == sorted;
  }

  /** The order of the keys, and which sort is used, do not matter. */
  lemma PackedSame(sort: seq<seq<Byte>> -> seq<seq<Byte>>, other: seq<seq<Byte>> -> seq<seq<Byte>>,
                   a: seq<seq<Byte>>, b: seq<seq<Byte>>)
    requires Sorts(sort) && Sorts(other) && Keys20(a) && Keys20(b) && multiset(a) == multiset(b)
    ensures Concat(sort(a)) == Concat(other(b))
  {
    SameKeys(a, sort(a));
    SameKeys(b, other(b));
    AscendingUnique(sort(a), other(b));
  }

  lemma SameKeys(a: seq<seq<Byte>>, b: seq<seq<Byte>>)
    requires Keys20(a) && multiset(a) == multiset(b)
    ensures Keys20(b)
  {
    forall i | 0 <= i < |b| ensures |b[i]| == 20 {
      assert b[i] in multiset(b);
      assert b[i] in a;
    }
  }

  /** The data of the pushes from `p` on. */
  function Pushed(s: seq<Byte>, p: nat, ends: seq<nat>): (d: seq<seq<Byte>>)
    requires PushesAt(s, p, ends)
    ensures |d| == |ends|
    decreases |ends|
  {
    if |ends| == 0 then [] else [s[p + HeaderLength(s[p])..ends[0]]] + Pushed(s, ends[0], ends[1..])
  }

  ghost predicate AtLeast20(data: seq<seq<Byte>>) {
    forall d :: d in data ==> |d| >= 20
  }

  /** The last twenty octets. */
  function Tail(d: seq<Byte>): seq<Byte> {
    if |d| < 20 then d else d[|d| - 20..]
  }

  function Tails(data: seq<seq<Byte>>): seq<seq<Byte>> {
    if |data| == 0 then [] else [Tail(data[0])] + Tails(data[1..])
  }

  lemma {:induction false} TailsJoin(a: seq<seq<Byte>>, b: seq<seq<Byte>>)
    ensures Tails(a + b) == Tails(a) + Tails(b)
    decreases |a|
  {
    hide Tail;
    if |a| == 0 {
      assert a + b == b;
    } else {
      TailsJoin(a[1..], b);
      assert (a + b)[1..] == a[1..] + b;
    }
  }

  lemma {:induction false} TailsAre20(data: seq<seq<Byte>>)
    requires AtLeast20(data)
    ensures Keys20(Tails(data))
    decreases |data|
  {
    if |data| == 0 {
    } else {
      TailsAre20(data[1..]);
    }
  }

  lemma OneTail(d: seq<Byte>)
    ensures Tails([d]) == [Tail(d)]
  {
    hide Tail;
    assert [d][1..] == [];
  }

  /** Wherever an element stands among others, its tail is one more. */
  lemma {:induction false} TailsAround(a: seq<seq<Byte>>, d: seq<Byte>, b: seq<seq<Byte>>)
    ensures multiset(Tails(a + [d] + b)) == multiset(Tails(a + b)) + multiset{Tail(d)}
  {
    hide Tail, Tails;
    TailsJoin(a, b);
    TailsJoin(a + [d], b);
    TailsJoin(a, [d]);
    OneTail(d);
  }

  lemma {:induction false} TailsPermuted(a: seq<seq<Byte>>, b: seq<seq<Byte>>)
    requires multiset(a) == multiset(b)
    ensures multiset(Tails(a)) == multiset(Tails(b))
    decreases |a|
  {
    hide Tail, Tails;
    if |a| == 0 {
      assert |multiset(b)| == 0;
    } else {
      var j := IndexIn(a[0], b);
      var x, y, rest := b[..j], b[j + 1..], a[1..];
      TakenOut(a, b, j);
      TailsPermuted(rest, x + y);
      SplitAt(a, 0);
      SplitAt(b, j);
      TailsAround(a[..0], a[0], rest);
      assert a[..0] + rest == rest;
      TailsAround(x, a[0], y);
    }
  }

  lemma TakenOut<X>(a: seq<X>, b: seq<X>, j: nat)
    requires multiset(a) == multiset(b) && |a| > 0 && j < |b| && b[j] == a[0]
    ensures multiset(a[1..]) == multiset(b[..j] + b[j + 1..])
  {
    SplitAt(a, 0);
    SplitAt(b, j);
    CountAround(a[..0], a[0], a[1..]);
    CountAround(b[..j], b[j], b[j + 1..]);
    OneLess(multiset(a[..0] + a[1..]), multiset(b[..j] + b[j + 1..]), a[0]);
    assert a[..0] + a[1..] == a[1..];
  }

  lemma OneLess<X>(a: multiset<X>, b: multiset<X>, d: X)
    requires a + multiset{d} == b + multiset{d}
    ensures a == b
  {
    assert a == a + multiset{d} - multiset{d};
    assert b == b + multiset{d} - multiset{d};
  }

  lemma SplitAt<X>(b: seq<X>, j: nat)
    requires j < |b|
    ensures b == b[..j] + [b[j]] + b[j + 1..]
  {
  }

  lemma CountAround<X>(x: seq<X>, d: X, y: seq<X>)
    ensures multiset(x + [d] + y) == multiset(x + y) + multiset{d}
  {
  }

  lemma IndexIn(d: seq<Byte>, b: seq<seq<Byte>>) returns (j: nat)
    requires d in multiset(b)
    ensures j < |b| && b[j] == d
  {
    j :| j < |b| && b[j] == d;
  }

  /** What is read as keys is the end of what is pushed, when that is long enough. */
  lemma {:induction false} KeysArePushed(mem: seq<Byte>, start: nat, s: seq<Byte>, p: nat, ends: seq<nat>)
    requires start >= 20 && start + |s| <= |mem| && s == mem[start..start + |s|]
    requires PushesAt(s, p, ends) && AtLeast20(Pushed(s, p, ends))
    ensures forall i :: 0 <= i < |ends| ==> ends[i] < |s|
    ensures KeysAt(mem, start, ends) == Tails(Pushed(s, p, ends))
    decreases |ends|
  {
    hide KeysAt, Tail, Tails, PushesAt, PushAt, Pushed, HeaderLength;
    if |ends| > 0 {
      var q, rest := ends[0], ends[1..];
      PushedStep(s, p, ends);
      KeysArePushed(mem, start, s, q, rest);
      assert forall i :: 1 <= i < |ends| ==> ends[i] == rest[i - 1];
      KeyIsPushed(mem, start, s, p, q);
      KeysLess(mem, start, ends);
    } else {
      NoKeys(mem, start, s);
      NonePushed(s, p, ends);
    }
  }

  lemma NonePushed(s: seq<Byte>, p: nat, ends: seq<nat>)
    requires |ends| == 0
    ensures PushesAt(s, p, ends) && Tails(Pushed(s, p, ends)) == []
  {
  }

  lemma {:induction false} PushedStep(s: seq<Byte>, p: nat, ends: seq<nat>)
    requires |ends| > 0 && PushesAt(s, p, ends) && AtLeast20(Pushed(s, p, ends))
    ensures PushAt(s, p, ends[0]) && ends[0] < |s| && PushesAt(s, ends[0], ends[1..])
    ensures
      var d, later := s[p + HeaderLength(s[p])..ends[0]], Pushed(s, ends[0], ends[1..]);
      |d| >= 20 && AtLeast20(later) && Tails(Pushed(s, p, ends)) == [Tail(d)] + Tails(later)
  {
    hide PushAt, HeaderLength, Tail;
    var all := Pushed(s, p, ends);
    assert all[1..] == Pushed(s, ends[0], ends[1..]);
    LaterLong(all);
    assert all[0] in all;
  }

  lemma LaterLong(data: seq<seq<Byte>>)
    requires AtLeast20(data) && |data| > 0
    ensures AtLeast20(data[1..])
  {
  }

  lemma KeyIsPushed(mem: seq<Byte>, start: nat, s: seq<Byte>, p: nat, q: nat)
    requires start >= 20 && start + |s| <= |mem| && s == mem[start..start + |s|] && PushAt(s, p, q) && q < |s|
    ensures
      var d := s[p + HeaderLength(s[p])..q];
      |d| >= 20 ==> Tail(d) == mem[start + q - 20..start + q]
  {
    hide DataLength, HeaderLength;
    var at := p + HeaderLength(s[p]);
    if q - at >= 20 {
      SliceOfSlice(s, at, q - at, q - at - 20, q - at);
      SliceOfSlice(mem, start, |s|, q - 20, q);
    }
  }

  lemma SliceOfSlice(mem: seq<Byte>, start: nat, size: nat, i: nat, j: nat)
    requires start + size <= |mem| && i <= j <= size
    ensures mem[start..start + size][i..j] == mem[start + i..start + j]
  {
    var a, b := mem[start..start + size][i..j], mem[start + i..start + j];
    assert |a| == |b| && forall k :: 0 <= k < |a| ==> a[k] == b[k];
  }

  lemma KeysLess(mem: seq<Byte>, start: nat, ends: seq<nat>)
    requires |ends| > 0 && start >= 20 && forall i :: 0 <= i < |ends| ==> start + ends[i] <= |mem|
    ensures KeysAt(mem, start, ends) == [mem[start + ends[0] - 20..start + ends[0]]] + KeysAt(mem, start, ends[1..])
  {
  }

  lemma StillLong(a: seq<seq<Byte>>, b: seq<seq<Byte>>)
    requires AtLeast20(a) && multiset(a) == multiset(b)
    ensures AtLeast20(b)
  {
    forall d | d in b ensures |d| >= 20 {
      assert d in multiset(b);
      assert d in a;
    }
  }

  /**
   * Two multi-signature scripts that push the same data in different orders, each piece at
   * least twenty octets, are packed alike: neither the order in which a script lists its
   * keys, nor the way they are pushed, nor what surrounds the script, nor the sort matters.
   */
  lemma {:induction false} PackIgnoresOrder(sort: seq<seq<Byte>> -> seq<seq<Byte>>,
                         other: seq<seq<Byte>> -> seq<seq<Byte>>,
                         mem: seq<Byte>, start: nat, s: seq<Byte>, m: int, n: int, ends: seq<nat>,
                         mem': seq<Byte>, start': nat, s': seq<Byte>, m': int, n': int, ends': seq<nat>)
    requires Sorts(sort) && Sorts(other)
    requires start >= 20 && start + |s| <= |mem| && s == mem[start..start + |s|]
    requires start' >= 20 && start' + |s'| <= |mem'| && s' == mem'[start'..start' + |s'|]
    requires IsScript(s, m, n, ends) && IsScript(s', m', n', ends')
    requires AtLeast20(Pushed(s, 1, ends)) && multiset(Pushed(s, 1, ends)) == multiset(Pushed(s', 1, ends'))
    ensures n == n'
    ensures (forall i :: 0 <= i < |ends| ==> ends[i] < |s|) && (forall i :: 0 <= i < |ends'| ==> ends'[i] < |s'|)
    ensures Concat(sort(KeysAt(mem, start, ends))) == Concat(other(KeysAt(mem', start', ends')))
  {
    hide PushesAt, KeysAt, Tails, Pushed, OversizeAt, Ascending, Concat;
    var a, b := Pushed(s, 1, ends), Pushed(s', 1, ends');
    assert |multiset(a)| == |a| && |multiset(b)| == |b|;
    StillLong(a, b);
    KeysArePushed(mem, start, s, 1, ends);
    KeysArePushed(mem', start', s', 1, ends');
    TailsPermuted(a, b);
    TailsAre20(a);
    TailsAre20(b);
    PackedSame(sort, other, Tails(a), Tails(b));
  }

  // ---------------------------------------------------------------------------------
  // Scripts as bytes, independent of the reader

  /** Data behind one of the four headers that announce its length. */
  predicate PushBytes(b: seq<Byte>, d: seq<Byte>) {
    || (1 <= |d| <= 75 && b == [|d|] + d)
    || (|b| >= 2 && b[0] == 76 && b[1] == |d| && b[2..] == d)
    || (|b| >= 3 && b[0] == 77 && Is2(b[1..3], |d|) && b[3..] == d)
    || (|b| >= 5 && b[0] == 78 && Is4(b[1..5], |d|) && b[5..] == d && |d| <= 524288)
  }

  ghost predicate PushesBytes(b: seq<Byte>, data: seq<seq<Byte>>)
    decreases |data|
  {
    if data == [] then b == []
    else exists k :: 0 <= k <= |b| && PushBytes(b[..k], data[0]) && PushesBytes(b[k..], data[1..])
  }

  /** A header that announces more than any push may have. */
  predicate OversizeBytes(b: seq<Byte>) {
    && |b| == 5 && b[0] == 78
    && b[1] as int + 0x100 * b[2] as int + 0x1_0000 * b[3] as int + 0x100_0000 * b[4] as int > 524288
  }

  /** "OP_m", the pushes, "OP_n", "OP_CHECKMULTISIG", in more than five octets; the code lets an oversize header
      stand before "OP_n". */
  ghost predicate MultiSigBytes(s: seq<Byte>, m: int, n: int, data: seq<seq<Byte>>) {
    && 1 <= m <= n <= 16 && |data| == n && |s| > 5
    && s[0] == 0x50 + m && s[|s| - 2] == 0x50 + n && s[|s| - 1] == 0xAE
    && exists k ::
      1 <= k <= |s| - 2 && PushesBytes(s[1..k], data) && (k == |s| - 2 || OversizeBytes(s[k..|s| - 2]))
  }

  lemma PushExact(s: seq<Byte>, p: nat, q: nat, d: seq<Byte>)
    requires p <= q <= |s|
    ensures PushBytes(s[p..q], d) <==> PushAt(s, p, q) && d == s[p + HeaderLength(s[p])..q]
  {
    var b, n := s[p..q], q - p;
    if n >= 1 {
      assert b[0] == s[p];
      if s[p] <= 75 {
        SliceOfSlice(s, p, n, 1, n);
        assert b == [b[0]] + b[1..];
      } else if s[p] == 76 && n >= 2 {
        assert b[1] == s[p + 1];
        SliceOfSlice(s, p, n, 2, n);
      } else if s[p] == 77 && n >= 3 {
        LongPush(s, p, q, 3);
      } else if s[p] == 78 && n >= 5 {
        LongPush(s, p, q, 5);
      }
    }
  }

  lemma LongPush(s: seq<Byte>, p: nat, q: nat, h: nat)
    requires p <= q <= |s| && 1 <= h <= q - p
    ensures s[p..q][1..h] == s[p + 1..p + h] && s[p..q][h..] == s[p + h..q]
  {
    SliceOfSlice(s, p, q - p, 1, h);
    SliceOfSlice(s, p, q - p, h, q - p);
  }

  lemma OversizeExact(s: seq<Byte>, p: nat, q: nat)
    requires p <= q <= |s|
    ensures OversizeBytes(s[p..q]) <==> OversizeAt(s, p, q)
  {
  }

  /** Pushes that are read are pushes as bytes. */
  lemma {:induction false} PushesRead(s: seq<Byte>, p: nat, ends: seq<nat>)
    requires p <= |s| && PushesAt(s, p, ends)
    ensures p <= Last(p, ends) <= |s| && PushesBytes(s[p..Last(p, ends)], Pushed(s, p, ends))
    decreases |ends|
  {
    hide PushAt, PushBytes, HeaderLength;
    if |ends| == 0 {
    } else {
      var q, e := ends[0], Last(p, ends);
      PushForward(s, p, q);
      PushesRead(s, q, ends[1..]);
      assert Last(q, ends[1..]) == e;
      PushExact(s, p, q, s[p + HeaderLength(s[p])..q]);
      SliceOfSlice(s, p, e - p, 0, q - p);
      SliceOfSlice(s, p, e - p, q - p, e - p);
      var b, data := s[p..e], Pushed(s, p, ends);
      assert data[1..] == Pushed(s, q, ends[1..]);
      assert PushBytes(b[..q - p], data[0]) && PushesBytes(b[q - p..], data[1..]);
    }
  }

  lemma PushForward(s: seq<Byte>, p: nat, q: nat)
    requires PushAt(s, p, q)
    ensures p < |s| && Pushes(s[p]) && p + HeaderLength(s[p]) <= |s| && p < q && p + HeaderLength(s[p]) <= q
  {
  }

  /** And pushes as bytes are read, before the end of the script. */
  lemma {:induction false} PushesFound(s: seq<Byte>, p: nat, k: nat, data: seq<seq<Byte>>) returns (ends: seq<nat>)
    requires p <= k < |s| && PushesBytes(s[p..k], data)
    ensures PushesAt(s, p, ends) && Last(p, ends) == k && Pushed(s, p, ends) == data
    decreases |data|
  {
    hide PushAt, PushBytes, HeaderLength;
    if data == [] {
      ends := [];
    } else {
      var b := s[p..k];
      var j :| 0 <= j <= |b| && PushBytes(b[..j], data[0]) && PushesBytes(b[j..], data[1..]);
      var q := p + j;
      SliceOfSlice(s, p, k - p, 0, j);
      SliceOfSlice(s, p, k - p, j, k - p);
      PushExact(s, p, q, data[0]);
      PushForward(s, p, q);
      var later := PushesFound(s, q, k, data[1..]);
      ends := [q] + later;
      assert ends[1..] == later;
      assert Pushed(s, p, ends) == [data[0]] + Pushed(s, q, later);
    }
  }

  /** What is recognised is, to the octet, what the format says. */
  lemma {:induction false} ScriptIsBytes(s: seq<Byte>, m: int, n: int, ends: seq<nat>)
    requires IsScript(s, m, n, ends)
    ensures MultiSigBytes(s, m, n, Pushed(s, 1, ends))
  {
    hide PushesAt, OversizeAt, OversizeBytes, PushesBytes, Pushed;
    PushesRead(s, 1, ends);
    var k := Last(1, ends);
    if k != |s| - 2 {
      OversizeForward(s, k, |s| - 2);
      OversizeExact(s, k, |s| - 2);
    }
  }

  lemma OversizeForward(s: seq<Byte>, p: nat, q: nat)
    requires OversizeAt(s, p, q)
    ensures p < q
  {
  }

  lemma BytesAreScript(s: seq<Byte>, m: int, n: int, data: seq<seq<Byte>>) returns (ends: seq<nat>)
    requires MultiSigBytes(s, m, n, data)
    ensures IsScript(s, m, n, ends) && Pushed(s, 1, ends) == data
  {
    hide PushesAt, OversizeAt, OversizeBytes, PushesBytes, Pushed;
    var k :| 1 <= k <= |s| - 2 && PushesBytes(s[1..k], data) && (k == |s| - 2 || OversizeBytes(s[k..|s| - 2]));
    ends := PushesFound(s, 1, k, data);
    OversizeExact(s, k, |s| - 2);
  }

  /** Every m-of-n script is recognised, with its m, its n and the end of each key. */
  method RecognisesAll(script: seq<Byte>, m: int, n: int, ghost data: seq<seq<Byte>>)
    returns (ok: bool, m': int, n': int, addresses: seq<seq<Byte>>)
    requires MultiSigBytes(script, m, n, data)
    ensures ok && m' == m && n' == n
    ensures AtLeast20(data) ==> addresses == Tails(data)
  {
    hide MultiSigBytes, Pushed, Tails, KeysAt, PushesAt;
    ghost var ends := BytesAreScript(script, m, n, data);
    var margin: seq<Byte> := seq(20, i => 0);
    var mem := margin + script + margin;
    assert mem[20..20 + |script|] == script;
    ghost var found;
    ok, m', n', addresses, found := IsMultiSig(mem, 20, |script|, []);
    SameEnds(script, m, n, ends, found);
    if AtLeast20(data) {
      KeysArePushed(mem, 20, script, 1, ends);
    }
  }

  lemma SameEnds(s: seq<Byte>, m: int, n: int, a: seq<nat>, b: seq<nat>)
    requires IsScript(s, m, n, a) && IsScript(s, m, n, b)
    ensures a == b
  {
    hide PushesAt;
    PushesAgree(s, 1, a, b);
    assert b[..|a|] == b;
  }

  /** Nothing else is: a script accepted is one, octet for octet. */
  method AcceptsOnly(script: seq<Byte>) returns (ok: bool, m: int, n: int, addresses: seq<seq<Byte>>)
    ensures ok <==> exists m', n', data :: MultiSigBytes(script, m', n', data)
    ensures ok ==> exists data :: MultiSigBytes(script, m, n, data) && (AtLeast20(data) ==> addresses == Tails(data))
  {
    hide MultiSigBytes, Pushed, Tails, KeysAt, PushesAt, IsScript;
    var margin: seq<Byte> := seq(20, i => 0);
    var mem := margin + script + margin;
    assert mem[20..20 + |script|] == script;
    ghost var ends;
    ok, m, n, addresses, ends := IsMultiSig(mem, 20, |script|, []);
    if ok {
      ScriptIsBytes(script, m, n, ends);
      ReadsPushes(script, m, n, ends);
      if AtLeast20(Pushed(script, 1, ends)) {
        KeysArePushed(mem, 20, script, 1, ends);
      }
    } else {
      forall m', n', data | MultiSigBytes(script, m', n', data) ensures false {
        ghost var e := BytesAreScript(script, m', n', data);
      }
    }
  }

  lemma ReadsPushes(s: seq<Byte>, m: int, n: int, ends: seq<nat>)
    requires IsScript(s, m, n, ends)
    ensures PushesAt(s, 1, ends)
  {
  }

  // ---------------------------------------------------------------------------------
  // A writer

  /** Each key behind its length. */
  function BuiltPushes(keys: seq<seq<Byte>>): (b: seq<Byte>)
    requires forall k :: k in keys ==> 1 <= |k| <= 75
  {
    if keys == [] then [] else [|keys[0]|] + keys[0] + BuiltPushes(keys[1..])
  }

  function Built(m: int, keys: seq<seq<Byte>>): seq<Byte>
    requires 1 <= m <= |keys| <= 16 && forall k :: k in keys ==> 1 <= |k| <= 75
  {
    [0x50 + m] + BuiltPushes(keys) + [0x50 + |keys|, 0xAE]
  }

  lemma {:induction false} BuiltPushesAre(keys: seq<seq<Byte>>)
    requires forall k :: k in keys ==> 1 <= |k| <= 75
    ensures PushesBytes(BuiltPushes(keys), keys)
    ensures keys != [] ==> |BuiltPushes(keys)| > |keys[0]|
    decreases |keys|
  {
    if keys == [] {
    } else {
      BuiltPushesAre(keys[1..]);
      var a, c := [|keys[0]|] + keys[0], BuiltPushes(keys[1..]);
      assert (a + c)[..|a|] == a && (a + c)[|a|..] == c;
      assert PushBytes(a, keys[0]);
    }
  }

  lemma BuiltIs(m: int, keys: seq<seq<Byte>>)
    requires 1 <= m <= |keys| <= 16 && forall k :: k in keys ==> 1 <= |k| <= 75
    requires |Built(m, keys)| > 5
    ensures MultiSigBytes(Built(m, keys), m, |keys|, keys)
  {
    hide BuiltPushes, PushesBytes;
    var b, s := BuiltPushes(keys), Built(m, keys);
    BuiltPushesAre(keys);
    assert s[1..|s| - 2] == b;
  }

  /** An m-of-n script of ordinary keys is accepted, with that m and n and the end of each key. */
  method BuiltAccepted(m: int, keys: seq<seq<Byte>>) returns (ok: bool, m': int, n': int, addresses: seq<seq<Byte>>)
    requires 1 <= m <= |keys| <= 16 && forall k :: k in keys ==> 20 <= |k| <= 75
    ensures ok && m' == m && n' == |keys| && |addresses| == |keys|
    ensures forall i :: 0 <= i < |keys| ==> addresses[i] == keys[i][|keys[i]| - 20..]
  {
    hide BuiltPushes, MultiSigBytes, Tails;
    BuiltPushesAre(keys);
    assert keys[0] in keys;
    BuiltIs(m, keys);
    ok, m', n', addresses := RecognisesAll(Built(m, keys), m, |keys|, keys);
    TailsAt(keys);
  }

  lemma {:induction false} TailsAt(data: seq<seq<Byte>>)
    ensures |Tails(data)| == |data| && forall i :: 0 <= i < |data| ==> Tails(data)[i] == Tail(data[i])
    decreases |data|
  {
    hide Tail;
    if |data| == 0 {
    } else {
      TailsAt(data[1..]);
    }
  }
}
