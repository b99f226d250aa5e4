/** The allBalances analysis: one running sum per address, erased when it reaches zero. */
module Balances {
  import opened Types
  import opened Ledger

  type Address = seq<Byte>

  const TWO64: nat := 0x1_0000_0000_0000_0000

  /** What an output is worth to an address; `solve` is the address a script pays, if it can be told. */
  function Worth(solve: seq<Byte> -> Option<Address>, a: Address, o: Coin): nat {
    if solve(o.script) == Some(a) then o.value else 0
  }

  /** Total value of the unspent outputs paying `a`. */
  ghost function Total(solve: seq<Byte> -> Option<Address>, a: Address, u: Coins): nat
    decreases |u|
  {
    if u == map[] then 0
    else
      var op :| op in u;
      Worth(solve, a, u[op]) + Total(solve, a, u - {op})
  }

  /** The total does not depend on the order of summation. */
  lemma {:induction false} TotalLess(solve: seq<Byte> -> Option<Address>, a: Address, u: Coins, op: OutPoint)
    requires op in u
    ensures Total(solve, a, u) == Worth(solve, a, u[op]) + Total(solve, a, u - {op})
    decreases |u|
  {
    var q :| q in u && Total(solve, a, u) == Worth(solve, a, u[q]) + Total(solve, a, u - {q});
    if q != op {
      TotalLess(solve, a, u - {q}, op);
      TotalLess(solve, a, u - {op}, q);
      assert u - {q} - {op} == u - {op} - {q};
    }
  }

  lemma TotalMore(solve: seq<Byte> -> Option<Address>, a: Address, u: Coins, op: OutPoint, o: Coin)
    requires op !in u
    ensures Total(solve, a, u[op := o]) == Worth(solve, a, o) + Total(solve, a, u)
  {
    TotalLess(solve, a, u[op := o], op);
    assert u[op := o] - {op} == u;
  }

  /** Conversion of a 64-bit pattern to int64_t, and unary minus on it. */
  function ToInt64(v: int): int {
    var r := v % TWO64;
    if r < TWO64 / 2 then r else r - TWO64
  }

  /** The signed number with the same 64 bits. */
  lemma ToInt64Is(v: int)
    ensures -0x8000_0000_0000_0000 <= ToInt64(v) < 0x8000_0000_0000_0000
    ensures (v - ToInt64(v)) % 0x1_0000_0000_0000_0000 == 0
  {
  }

  /** What the analysis reports for each address, given the addresses it is restricted to (none: all): the
      64-bit total of what is unspent, with no entry when that is zero. */
  ghost predicate Balanced(solve: seq<Byte> -> Option<Address>, restricts: set<Address>, sums: map<Address, nat>,
        u: Coins) {
    forall a :: EntryRight(sums, a, Tracked(restricts, a), Total(solve, a, u) % TWO64)
  }

  predicate EntryRight(sums: map<Address, nat>, a: Address, tracked: bool, total: nat) {
    && (a in sums <==> tracked && total != 0)
    && (a in sums ==> sums[a] == total)
  }

  predicate Tracked(restricts: set<Address>, a: Address) {
    restricts == {} || a in restricts
  }

  /** Spelled out for one address. */
  lemma {:induction false} BalancedIs(solve: seq<Byte> -> Option<Address>, restricts: set<Address>,
                                      sums: map<Address, nat>, u: Coins, a: Address)
    requires Balanced(solve, restricts, sums, u)
    ensures a in sums <==> (restricts == {} || a in restricts) && Total(solve, a, u) % 0x1_0000_0000_0000_0000 != 0
    ensures a in sums ==> sums[a] == Total(solve, a, u) % 0x1_0000_0000_0000_0000
  {
    assert EntryRight(sums, a, Tracked(restricts, a), Total(solve, a, u) % TWO64);
  }

  /** The total is the sum of the values of the outputs that pay the address, each counted once. */
  lemma TotalIs(solve: seq<Byte> -> Option<Address>, a: Address, u: Coins, op: OutPoint, o: Coin)
    requires op !in u
    ensures Total(solve, a, map[]) == 0
    ensures Total(solve, a, u[op := o]) == Total(solve, a, u) + if solve(o.script) == Some(a) then o.value else 0
  {
    hide Total;
    NothingInAll(solve, a);
    TotalMore(solve, a, u, op, o);
  }

  /** The sums after `value` was moved to address `a`. */
  function Moved(sums: map<Address, nat>, a: Address, value: int): map<Address, nat> {
    var sum := ((if a in sums then sums[a] else 0) + value) % TWO64;
    if sum == 0 then sums - {a} else sums[a := sum]
  }

  function MovedBy(solve: seq<Byte> -> Option<Address>, restricts: set<Address>,
                   sums: map<Address, nat>, script: seq<Byte>, value: int): map<Address, nat> {
    match solve(script)
    case None => sums
    case Some(a) => if Tracked(restricts, a) then Moved(sums, a, value) else sums
  }

  /** A 64-bit sum after `value` was added to it, if it was. */
  function After(added: bool, sum: nat, value: int): nat {
    if added then (sum + value) % TWO64 else sum
  }

  lemma WrappedSum(t: nat, v: nat)
    ensures (t % TWO64 + ToInt64(v)) % TWO64 == (t + v) % TWO64
  {
    var q, p, s := t / TWO64, v / TWO64, t % TWO64 + v % TWO64;
    var k := if s < TWO64 then 0 else 1;
    Remainder(t + v, q + p + k, s - k * TWO64);
    Remainder(t % TWO64 + ToInt64(v), if v % TWO64 < TWO64 / 2 then k else k - 1, s - k * TWO64);
  }

  lemma WrappedDifference(t: nat, v: nat)
    ensures ((v + t) % TWO64 + ToInt64(-ToInt64(v))) % TWO64 == t % TWO64
  {
    var q, p, r, w := t / TWO64, v / TWO64, t % TWO64, v % TWO64;
    var k := if r + w < TWO64 then 0 else 1;
    Remainder(v + t, q + p + k, r + w - k * TWO64);
    var x := -ToInt64(v);
    var j := if w == 0 || w >= TWO64 / 2 then 0 else -1;
    Remainder(x, j, x - j * TWO64);
    Remainder(r + w - k * TWO64 + ToInt64(x),
            if w > TWO64 / 2 then 1 - k else if w == TWO64 / 2 then 0 - k else 0 - k, r);
  }

  lemma Remainder(x: int, k: int, r: nat)
    requires x == k * TWO64 + r && r < TWO64
    ensures x % TWO64 == r
  {
  }

  /** Moving an amount keeps every entry right when it is what the total of the address paid moved by. */
  lemma {:induction false} MovedBalanced(solve: seq<Byte> -> Option<Address>, restricts: set<Address>,
                      sums: map<Address, nat>, u: Coins, u': Coins, script: seq<Byte>, value: int)
    requires Balanced(solve, restricts, sums, u)
    requires forall a ::
      Total(solve, a, u') % TWO64 == After(solve(script) == Some(a), Total(solve, a, u) % TWO64, value)
    ensures Balanced(solve, restricts, MovedBy(solve, restricts, sums, script, value), u')
  {
    var sums' := MovedBy(solve, restricts, sums, script, value);
    forall a ensures EntryRight(sums', a, Tracked(restricts, a), Total(solve, a, u') % TWO64) {
      assert EntryRight(sums, a, Tracked(restricts, a), Total(solve, a, u) % TWO64);
    }
  }

  /** An output created keeps the balances right. */
  lemma CreditBalanced(solve: seq<Byte> -> Option<Address>, restricts: set<Address>,
                       sums: map<Address, nat>, u: Coins, op: OutPoint, o: Coin)
    requires Balanced(solve, restricts, sums, u) && op !in u
    ensures Balanced(solve, restricts, MovedBy(solve, restricts, sums, o.script, ToInt64(o.value)), u[op := o])
  {
    forall a ensures Total(solve, a, u[op := o]) % TWO64 ==
                       After(solve(o.script) == Some(a), Total(solve, a, u) % TWO64, ToInt64(o.value))
    {
      TotalMore(solve, a, u, op, o);
      WrappedSum(Total(solve, a, u), o.value);
    }
    MovedBalanced(solve, restricts, sums, u, u[op := o], o.script, ToInt64(o.value));
  }

  /** An output spent keeps them right too. While the address paid has less than 2^64 in all, its entry is
      there and covers the amount, so that the sum does not wrap below zero. */
  lemma DebitBalanced(solve: seq<Byte> -> Option<Address>, restricts: set<Address>,
                      sums: map<Address, nat>, u: Coins, op: OutPoint)
    requires Balanced(solve, restricts, sums, u) && op in u
    ensures Balanced(solve, restricts, MovedBy(solve, restricts, sums, u[op].script,
            ToInt64(-ToInt64(u[op].value))), u - {op})
    ensures Covered(solve, restricts, sums, u, u[op])
  {
    var o, value := u[op], ToInt64(-ToInt64(u[op].value));
    forall a ensures Total(solve, a, u - {op}) % TWO64 ==
                       After(solve(o.script) == Some(a), Total(solve, a, u) % TWO64, value)
    {
      TotalLess(solve, a, u, op);
      WrappedDifference(Total(solve, a, u - {op}), o.value);
    }
    MovedBalanced(solve, restricts, sums, u, u - {op}, o.script, value);
    DebitCovered(solve, restricts, sums, u, op);
  }

  /** Below 2^64, the sum of the address an output pays is there and is no less than the output. */
  ghost predicate Covered(solve: seq<Byte> -> Option<Address>, restricts: set<Address>, sums: map<Address, nat>,
        u: Coins, o: Coin) {
    match solve(o.script)
    case None => true
    case Some(a) =>
      Tracked(restricts, a) && Total(solve, a, u) < TWO64 && o.value > 0 ==> a in sums && o.value <= sums[a]
  }

  lemma DebitCovered(solve: seq<Byte> -> Option<Address>, restricts: set<Address>,
                     sums: map<Address, nat>, u: Coins, op: OutPoint)
    requires Balanced(solve, restricts, sums, u) && op in u
    ensures Covered(solve, restricts, sums, u, u[op])
  {
    if solve(u[op].script).Some? {
      var a := solve(u[op].script).value;
      var t := Total(solve, a, u);
      TotalLess(solve, a, u, op);
      assert EntryRight(sums, a, Tracked(restricts, a), t % TWO64);
      if t < TWO64 {
        Remainder(t, 0, t);
      }
    }
  }

  /** The sums are the totals themselves exactly as long as those stay below 2^64. */
  lemma {:induction false} ExactBelow64Bits(solve: seq<Byte> -> Option<Address>, sums: map<Address, nat>, u: Coins,
        a: Address)
    requires Balanced(solve, {}, sums, u)
    ensures
      var t := Total(solve, a, u);
      (a in sums <==> t > 0) && (a in sums ==> sums[a] == t) <==> t < TWO64
  {
    var t := Total(solve, a, u);
    assert EntryRight(sums, a, Tracked({}, a), t % TWO64);
    if t < TWO64 {
      Remainder(t, 0, t);
    }
  }

  /** Where that fails: two outputs of 2^63 to one address are worth 2^64, and the address has no entry. */
  lemma {:induction false} WrapsAt64Bits(solve: seq<Byte> -> Option<Address>, script: seq<Byte>, a: Address,
                                         p: OutPoint, q: OutPoint)
    requires solve(script) == Some(a) && p != q
    ensures
      var o := Coin(0x8000_0000_0000_0000, script);
      var u := map[p := o, q := o];
      Total(solve, a, u) == TWO64 && Balanced(solve, {}, map[], u)
  {
    hide Total;
    var o := Coin(0x8000_0000_0000_0000, script);
    forall b ensures Total(solve, b, map[p := o, q := o]) == 2 * Worth(solve, b, o) {
      NothingInAll(solve, b);
      TotalMore(solve, b, map[], p, o);
      TotalMore(solve, b, map[][p := o], q, o);
      assert map[][p := o][q := o] == map[p := o, q := o];
    }
  }

  lemma {:induction false} NothingInAll(solve: seq<Byte> -> Option<Address>, a: Address)
    ensures Total(solve, a, map[]) == 0
  {
  }

  // ---------------------------------------------------------------------------------
  // Whole runs

  lemma NothingBalanced(solve: seq<Byte> -> Option<Address>, restricts: set<Address>)
    ensures Balanced(solve, restricts, map[], map[])
  {
    forall a ensures EntryRight(map[], a, Tracked(restricts, a), Total(solve, a, map[]) % TWO64) {}
  }

  lemma {:induction false} PlayPrefix(events: seq<Event>, k: nat)
    requires k <= |events| && Play(map[], events).Some?
    ensures Play(map[], events[..k]).Some?
    decreases |events|
  {
    hide PlayOne;
    if k < |events| {
      PlayPrefix(events[..|events| - 1], k);
      assert events[..|events| - 1][..k] == events[..k];
    } else {
      assert events[..k] == events;
    }
  }

  /** What an event does to the sums: endOutput credits, edge debits, the others change none. */
  function MovedByEvent(solve: seq<Byte> -> Option<Address>, restricts: set<Address>, sums: map<Address, nat>,
                        e: Event): map<Address, nat> {
    match e
    case Edge(value, _, _, script, _, _) => MovedBy(solve, restricts, sums, script, ToInt64(-ToInt64(value)))
    case EndOutput(value, _, _, script) => MovedBy(solve, restricts, sums, script, ToInt64(value))
    case _ => sums
  }

  function SumsOver(solve: seq<Byte> -> Option<Address>, restricts: set<Address>, events: seq<Event>):
    map<Address, nat>
  {
    if events == [] then map[]
    else
      var n := |events| - 1;
      MovedByEvent(solve, restricts, SumsOver(solve, restricts, events[..n]), events[n])
  }

  lemma EventBalanced(solve: seq<Byte> -> Option<Address>, restricts: set<Address>, sums: map<Address, nat>,
                      c: Coins, e: Event)
    requires Balanced(solve, restricts, sums, c) && PlayOne(c, e).Some?
    ensures Balanced(solve, restricts, MovedByEvent(solve, restricts, sums, e), PlayOne(c, e).value)
  {
    hide Balanced, MovedBy, ToInt64, Covered;
    match e {
      case Edge(value, h, i, script, _, _) =>
        DebitBalanced(solve, restricts, sums, c, OutPoint(h, i));
      case EndOutput(value, h, i, script) =>
        CreditBalanced(solve, restricts, sums, c, OutPoint(h, i), Coin(value, script));
      case _ =>
    }
  }

  /** After `k` events the sums are right for the coins as they then are. */
  ghost predicate BalancedAfter(solve: seq<Byte> -> Option<Address>, restricts: set<Address>, events: seq<Event>,
        k: nat)
    requires k <= |events|
  {
    match Play(map[], events[..k])
    case None => false
    case Some(c) => Balanced(solve, restricts, SumsOver(solve, restricts, events[..k]), c)
  }

  /** When event `k` spends an output, the sum it is taken from covers it below 2^64. */
  ghost predicate CoveredAt(solve: seq<Byte> -> Option<Address>, restricts: set<Address>, events: seq<Event>, k: nat)
    requires k < |events|
  {
    match (Play(map[], events[..k]), events[k])
    case (Some(c), Edge(value, _, _, script, _, _)) =>
      Covered(solve, restricts, SumsOver(solve, restricts, events[..k]), c, Coin(value, script))
    case _ => true
  }

  /** The balances are right at every moment of a run, and no sum below 2^64 wraps on the way. */
  ghost predicate RightThroughout(solve: seq<Byte> -> Option<Address>, restricts: set<Address>,
        events: seq<Event>) {
    && (forall k :: 0 <= k <= |events| ==> BalancedAfter(solve, restricts, events, k))
    && (forall k :: 0 <= k < |events| ==> CoveredAt(solve, restricts, events, k))
  }

  /** Every prefix of a run leaves the balances right. */
  lemma {:induction false} RunBalanced(solve: seq<Byte> -> Option<Address>, restricts: set<Address>,
                                       events: seq<Event>, k: nat)
    requires k <= |events| && Play(map[], events).Some?
    ensures BalancedAfter(solve, restricts, events, k)
    ensures k < |events| ==> CoveredAt(solve, restricts, events, k)
  {
    hide Balanced, Covered, PlayOne, MovedByEvent;
    PlayPrefix(events, k);
    if k == 0 {
      NothingBalanced(solve, restricts);
    } else {
      RunBalanced(solve, restricts, events, k - 1);
      assert events[..k][..k - 1] == events[..k - 1];
      var c := Play(map[], events[..k - 1]).value;
      EventBalanced(solve, restricts, SumsOver(solve, restricts, events[..k - 1]), c, events[k - 1]);
    }
    if k < |events| {
      NextCovered(solve, restricts, events, k);
    }
  }

  lemma {:induction false} NextCovered(solve: seq<Byte> -> Option<Address>, restricts: set<Address>,
        events: seq<Event>, k: nat)
    requires k < |events| && Play(map[], events).Some? && BalancedAfter(solve, restricts, events, k)
    ensures CoveredAt(solve, restricts, events, k)
  {
    hide Balanced, Covered, SumsOver;
    PlayPrefix(events, k + 1);
    assert events[..k + 1][..k] == events[..k];
    var c := Play(map[], events[..k]).value;
    if events[k].Edge? {
      DebitCovered(solve, restricts, SumsOver(solve, restricts, events[..k]), c,
        OutPoint(events[k].upHash, events[k].upIndex));
    }
  }

  /** Moved in three steps: find or open the record, add, drop it when empty. */
  lemma MovedSteps(sums: map<Address, nat>, a: Address, value: int)
    ensures
      var found := sums[a := if a in sums then sums[a] else 0];
      var s := (found[a] + value) % TWO64;
      Moved(sums, a, value) == if s == 0 then found[a := s] - {a} else found[a := s]
  {
  }

  class Addr {
    var sum: nat       // uint64_t
    var nbIn: nat
    var nbOut: nat

    constructor ()
      ensures sum == nbIn == nbOut == 0
    {
      sum, nbIn, nbOut := 0, 0, 0;
    }
  }

  class AllBalances {
    const solve: seq<Byte> -> Option<Address>
    const restricts: set<Address>
    var addrMap: map<Address, Addr>

    /** No two addresses share a record. */
    ghost predicate Valid()
      reads this
    {
      forall a, b :: a in addrMap && b in addrMap && addrMap[a] == addrMap[b] ==> a == b
    }

    function Sums(): map<Address, nat>
      reads this, addrMap.Values
    {
      map a | a in addrMap :: addrMap[a].sum
    }

    constructor (solve: seq<Byte> -> Option<Address>, restricts: set<Address>)
      ensures Valid() && addrMap == map[] && this.solve == solve && this.restricts == restricts
    {
      this.solve, this.restricts, addrMap := solve, restricts, map[];
    }

    /** move: adds a signed value to the sum of the address the script pays, opening a record if there is
        none and dropping it when the sum is zero. */
    method Move(script: seq<Byte>, value: int)
      requires Valid()
      modifies this, addrMap.Values
      ensures Valid() && Sums() == old(MovedBy(solve, restricts, Sums(), script, value))
      ensures fresh(addrMap.Values - old(addrMap.Values))
    {
      var solved := solve(script);
      if solved.None? { return; }
      var a := solved.value;
      if restricts != {} && a !in restricts { return; }
      MoveTo(a, value);
    }

    method MoveTo(a: Address, value: int)
      requires Valid()
      modifies this, addrMap.Values
      ensures Valid() && Sums() == old(Moved(Sums(), a, value))
      ensures fresh(addrMap.Values - old(addrMap.Values))
    {
      var addr := Record(a);
      hide AllBalances.Sums, Moved;
      MovedSteps(old(Sums()), a, value);
      Adjust(a, addr, value);
      if addr.sum == 0 {
        Erase(a);
      }
    }

    method Erase(a: Address)
      requires Valid()
      modifies this
      ensures Valid() && Sums() == old(Sums()) - {a} && addrMap.Values <= old(addrMap.Values)
    {
      addrMap := addrMap - {a};
    }

    /** Counts the movement and adds to the sum, modulo 2^64. */
    method Adjust(ghost a: Address, addr: Addr, value: int)
      requires Valid() && a in addrMap && addrMap[a] == addr
      modifies addr
      ensures Sums() == old(Sums())[a := (old(addr.sum) + value) % TWO64]
      ensures addr.sum == (old(addr.sum) + value) % TWO64
    {
      if 0 < value {
        addr.nbIn := addr.nbIn + 1;
      } else {
        addr.nbOut := addr.nbOut + 1;
      }
      addr.sum := (addr.sum + value) % TWO64;
    }

    /** The record of `a`, opened empty if there was none. */
    method Record(a: Address) returns (addr: Addr)
      requires Valid()
      modifies this
      ensures Valid() && a in addrMap && addrMap[a] == addr && fresh(addrMap.Values - old(addrMap.Values))
      ensures addr.sum == Sums()[a]
      ensures Sums() == old(Sums()[a := if a in Sums() then Sums()[a] else 0])
    {
      if a in addrMap {
        addr := addrMap[a];
      } else {
        addr := new Addr();
        addrMap := addrMap[a := addr];
      }
    }

    /** The callbacks: endOutput credits, edge debits, the others change no balance. */
    method Handle(e: Event, ghost c: Coins)
      requires Valid() && Balanced(solve, restricts, Sums(), c) && PlayOne(c, e).Some?
      modifies this, addrMap.Values
      ensures Valid() && Sums() == old(MovedByEvent(solve, restricts, Sums(), e))
      ensures Balanced(solve, restricts, Sums(), PlayOne(c, e).value)
      ensures fresh(addrMap.Values - old(addrMap.Values))
    {
      hide Balanced, MovedBy, ToInt64, PlayOne, AllBalances.Sums;
      EventBalanced(solve, restricts, Sums(), c, e);
      match e {
        case Edge(value, _, _, script, _, _) =>
          Move(script, ToInt64(-ToInt64(value)));
        case EndOutput(value, _, _, script) =>
          Move(script, ToInt64(value));
        case _ =>
      }
    }

    /** A whole run: right at the end, and after every event on the way. */
    method Run(events: seq<Event>)
      requires Valid() && addrMap == map[] && Play(map[], events).Some?
      modifies this, addrMap.Values
      ensures Valid() && Sums() == SumsOver(solve, restricts, events)
      ensures RightThroughout(solve, restricts, events)
      ensures Balanced(solve, restricts, Sums(), Play(map[], events).value)
    {
      hide Balanced, Covered, PlayOne, MovedByEvent, AllBalances.Sums;
      assert Sums() == map[] by { SumsOfNone(); }
      for k := 0 to |events|
        invariant Valid() && fresh(addrMap.Values - old(addrMap.Values))
        invariant Sums() == SumsOver(solve, restricts, events[..k])
      {
        RunBalanced(solve, restricts, events, k);
        RunBalanced(solve, restricts, events, k + 1);
        assert events[..k + 1][..k] == events[..k];
        Handle(events[k], Play(map[], events[..k]).value);
      }
      assert events[..|events|] == events;
      forall k | 0 <= k <= |events|
        ensures BalancedAfter(solve, restricts, events, k)
        ensures k < |events| ==> CoveredAt(solve, restricts, events, k)
      {
        RunBalanced(solve, restricts, events, k);
      }
      assert BalancedAfter(solve, restricts, events, |events|);
    }

    lemma SumsOfNone()
      requires addrMap == map[]
      ensures Sums() == map[]
    {
    }
  }
}
