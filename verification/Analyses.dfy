/** The parser and the analyses together, over the bytes of the longest chain. */
module Analyses {
  import opened Types
  import opened TxFormat
  import opened Ledger
  import opened Parser
  import opened Balances
  import opened Taint

  /** Replaying the events of a clean chain from nothing ends in the coins of its ledger. */
  lemma {:induction false} ChainPlays(txs: seq<(Hash, Tx)>)
    requires ApplyAll(map[], txs).Next?
    ensures Play(map[], AllEvents(map[], txs)) == Some(CoinsOf(ApplyAll(map[], txs).utxo))
  {
    EventsPlay(map[], txs);
    assert CoinsOf(map[]) == map[];
  }

  /** The parser over a chain of blocks, and the events it reports. */
  method EventsOfChain(hashOf: seq<Byte> -> Hash, blocks: seq<seq<Byte>>) returns (ok: bool, events: seq<Event>)
    requires forall i :: 0 <= i < |blocks| ==> BlockAt(hashOf, blocks[i]).Some?
    requires ApplyAll(map[], ChainTxs(hashOf, blocks)) != Unclean
    ensures ok <==> ApplyAll(map[], ChainTxs(hashOf, blocks)).Next?
    ensures ok ==> events == AllEvents(map[], ChainTxs(hashOf, blocks))
  {
    hide ApplyAll, AllEvents, BlockAt, ChainTxs, TxParser.Valid;
    var parser := new TxParser(hashOf);
    ok := parser.ParseChain(blocks);
    events := parser.events;
  }

  /** allBalances over a chain of blocks: after every event what is recorded for each address is what the
      coins at that moment pay it, no sum below 2^64 wraps on the way, and what is reported at the end is what
      the plain ledger says is unspent. Fails only where the program stops with a fatal error. */
  method BalancesOfChain(hashOf: seq<Byte> -> Hash, solve: seq<Byte> -> Option<Address>, blocks: seq<seq<Byte>>)
    returns (ok: bool, sums: map<Address, nat>)
    requires forall i :: 0 <= i < |blocks| ==> BlockAt(hashOf, blocks[i]).Some?
    requires ApplyAll(map[], ChainTxs(hashOf, blocks)) != Unclean
    ensures ok <==> ApplyAll(map[], ChainTxs(hashOf, blocks)).Next?
    ensures ok ==> sums == SumsOver(solve, {}, AllEvents(map[], ChainTxs(hashOf, blocks)))
    ensures ok ==> RightThroughout(solve, {}, AllEvents(map[], ChainTxs(hashOf, blocks)))
    ensures ok ==> Balanced(solve, {}, sums, CoinsOf(ApplyAll(map[], ChainTxs(hashOf, blocks)).utxo))
  {
    hide ApplyAll, AllEvents, Balanced, BlockAt, ChainTxs, Play, RightThroughout, SumsOver;
    var events;
    ok, events := EventsOfChain(hashOf, blocks);
    sums := map[];
    if ok {
      ChainPlays(ChainTxs(hashOf, blocks));
      sums := BalancesOf(solve, events);
    }
  }

  method BalancesOf(solve: seq<Byte> -> Option<Address>, events: seq<Event>) returns (sums: map<Address, nat>)
    requires Play(map[], events).Some?
    ensures sums == SumsOver(solve, {}, events)
    ensures RightThroughout(solve, {}, events)
    ensures Balanced(solve, {}, sums, Play(map[], events).value)
  {
    hide Balanced, Play, RightThroughout, SumsOver;
    var balances := new AllBalances(solve, {});
    balances.Run(events);
    sums := balances.Sums();
  }

  /** The taint analysis over a chain of blocks: sources are wholly tainted, and each transaction has mixed what
      it took in. As long as hashes determine transactions, no transaction raises the tainted value of what is
      unspent unless it is a source or creates value, and if none but sources does, no more is tainted than
      sources paid out. */
  method TaintOfChain(hashOf: seq<Byte> -> Hash, sources: set<Hash>, blocks: seq<seq<Byte>>)
    returns (ok: bool, taint: map<Hash, real>)
    requires forall i :: 0 <= i < |blocks| ==> BlockAt(hashOf, blocks[i]).Some?
    requires ApplyAll(map[], ChainTxs(hashOf, blocks)) != Unclean
    ensures ok <==> ApplyAll(map[], ChainTxs(hashOf, blocks)).Next?
    ensures ok ==> taint == StateAfter(sources, ChainTxs(hashOf, blocks)).taintMap
    ensures ok ==> forall h :: h in taint ==> 0.0 < taint[h] <= 1.0
    ensures ok ==> forall h :: h in sources ==> h in taint && taint[h] == 1.0
    ensures ok ==> MixesThroughout(sources, ChainTxs(hashOf, blocks))
    ensures ok && HashesDetermine(ChainTxs(hashOf, blocks)) ==>
      NeverGrows(sources, ChainTxs(hashOf, blocks)) && PaidBySources(sources, ChainTxs(hashOf, blocks))
  {
    hide ApplyAll, AllEvents, BlockAt, ChainTxs, MixesThroughout, NeverGrows, PaidBySources, HashesDetermine;
    var events;
    ok, events := EventsOfChain(hashOf, blocks);
    taint := map[];
    if ok {
      taint := TaintOf(sources, events);
      MixedEverywhere(sources, ChainTxs(hashOf, blocks));
      if HashesDetermine(ChainTxs(hashOf, blocks)) {
        GrowsNowhere(sources, ChainTxs(hashOf, blocks));
        BoundedBySources(sources, ChainTxs(hashOf, blocks));
      }
    }
  }

  /** Every transaction has changed the taints on record as a mixer does. */
  ghost predicate MixesThroughout(sources: set<Hash>, txs: seq<(Hash, Tx)>) {
    forall k :: 0 <= k < |txs| ==> MixedAt(sources, txs, k)
  }

  lemma {:induction false} MixedEverywhere(sources: set<Hash>, txs: seq<(Hash, Tx)>)
    requires ApplyAll(map[], txs).Next?
    ensures MixesThroughout(sources, txs)
  {
    hide ApplyAll, MixedAt;
    forall k | 0 <= k < |txs| ensures MixedAt(sources, txs, k) {
      RunMixed(sources, txs, k);
    }
  }

  /** Transactions that are no sources and create no value do not raise the tainted value. */
  ghost predicate NeverGrows(sources: set<Hash>, txs: seq<(Hash, Tx)>) {
    forall k :: 0 <= k < |txs| && txs[k].0 !in sources && ConservesAt(txs, k) ==>
      TaintedAfter(sources, txs[..k + 1]) <= TaintedAfter(sources, txs[..k])
  }

  lemma {:induction false} GrowsNowhere(sources: set<Hash>, txs: seq<(Hash, Tx)>)
    requires ApplyAll(map[], txs).Next? && HashesDetermine(txs)
    ensures NeverGrows(sources, txs)
  {
    hide ApplyAll, TaintedAfter, ConservesAt, HashesDetermine;
    forall k | 0 <= k < |txs| && txs[k].0 !in sources && ConservesAt(txs, k)
      ensures TaintedAfter(sources, txs[..k + 1]) <= TaintedAfter(sources, txs[..k])
    {
      TaintNeverGrows(sources, txs, k);
    }
  }

  /** If no transaction but sources creates value, no more is tainted than sources have paid out. */
  ghost predicate PaidBySources(sources: set<Hash>, txs: seq<(Hash, Tx)>) {
    (forall k :: 0 <= k < |txs| && txs[k].0 !in sources ==> ConservesAt(txs, k)) ==>
      TaintedAfter(sources, txs) <= SourceValue(sources, txs) as real
  }

  lemma {:induction false} BoundedBySources(sources: set<Hash>, txs: seq<(Hash, Tx)>)
    requires ApplyAll(map[], txs).Next? && HashesDetermine(txs)
    ensures PaidBySources(sources, txs)
  {
    hide ApplyAll, TaintedAfter, ConservesAt, HashesDetermine, SourceValue;
    if forall k :: 0 <= k < |txs| && txs[k].0 !in sources ==> ConservesAt(txs, k) {
      TaintFromSources(sources, txs);
    }
  }

  method TaintOf(sources: set<Hash>, events: seq<Event>) returns (taint: map<Hash, real>)
    ensures taint == Taint.Initial(sources).Steps(sources, events).taintMap
    ensures forall h :: h in taint ==> 0.0 < taint[h] <= 1.0
    ensures forall h :: h in sources ==> h in taint && taint[h] == 1.0
  {
    var analysis := new TaintAnalysis(sources);
    analysis.Run(events);
    taint := analysis.taintMap;
  }

  // ---------------------------------------------------------------------------------
  // Hashes determine the transactions of a chain unless two strings of its bytes hash alike

  /** A stretch of the bytes of one of the blocks. */
  ghost predicate Within(blocks: seq<seq<Byte>>, raw: seq<Byte>) {
    exists s, p, e :: s in blocks && SliceIs(s, p, e, raw)
  }

  predicate SliceIs(s: seq<Byte>, p: int, e: int, raw: seq<Byte>) {
    0 <= p <= e <= |s| && raw == s[p..e]
  }

  /** The transaction is what all of `raw` parses to, and its hash is that of `raw`, bytes of these blocks. */
  ghost predicate FromBytes(hashOf: seq<Byte> -> Hash, blocks: seq<seq<Byte>>, p: (Hash, Tx), raw: seq<Byte>) {
    TxAt(raw, 0) == Some((p.1, |raw|)) && p.0 == hashOf(raw) && Within(blocks, raw)
  }

  ghost predicate AllFromBytes(hashOf: seq<Byte> -> Hash, blocks: seq<seq<Byte>>, txs: seq<(Hash, Tx)>) {
    forall p :: p in txs ==> exists raw :: FromBytes(hashOf, blocks, p, raw)
  }

  lemma {:induction false} TxsFromBytes(hashOf: seq<Byte> -> Hash, s: seq<Byte>, p: nat, n: nat)
    requires TxsAt(hashOf, s, p, n).Some?
    ensures AllFromBytes(hashOf, [s], TxsAt(hashOf, s, p, n).value.0)
    decreases n
  {
    hide TxAt, FromBytes;
    if n == 0 {
    } else {
      TxsFromBytes(hashOf, s, p, n - 1);
      var q := TxsAt(hashOf, s, p, n - 1).value.1;
      TxFromBytes(hashOf, s, q);
    }
  }

  lemma TxFromBytes(hashOf: seq<Byte> -> Hash, s: seq<Byte>, p: nat)
    requires TxAt(s, p).Some?
    ensures exists raw :: FromBytes(hashOf, [s], (HashAt(hashOf, s, p), TxAt(s, p).value.0), raw)
  {
    hide TxAt;
    TxBounds(s, p);
    var e := TxAt(s, p).value.1;
    TxSame(s, p, s[p..e], 0);
    assert s in [s] && SliceIs(s, p, e, s[p..e]);
    assert FromBytes(hashOf, [s], (HashAt(hashOf, s, p), TxAt(s, p).value.0), s[p..e]);
  }

  lemma MoreBlocks(hashOf: seq<Byte> -> Hash, blocks: seq<seq<Byte>>, more: seq<seq<Byte>>, txs: seq<(Hash, Tx)>)
    requires AllFromBytes(hashOf, blocks, txs) && forall s :: s in blocks ==> s in more
    ensures AllFromBytes(hashOf, more, txs)
  {
    hide TxAt;
    forall p | p in txs ensures exists raw :: FromBytes(hashOf, more, p, raw) {
      var raw :| FromBytes(hashOf, blocks, p, raw);
      assert FromBytes(hashOf, more, p, raw);
    }
  }

  lemma {:induction false} ChainFromBytes(hashOf: seq<Byte> -> Hash, blocks: seq<seq<Byte>>)
    requires forall i :: 0 <= i < |blocks| ==> BlockAt(hashOf, blocks[i]).Some?
    ensures AllFromBytes(hashOf, blocks, ChainTxs(hashOf, blocks))
  {
    hide TxsAt, FromBytes, VarInt;
    if blocks == [] {
    } else {
      var rest, s := blocks[..|blocks| - 1], blocks[|blocks| - 1];
      ChainFromBytes(hashOf, rest);
      MoreBlocks(hashOf, rest, blocks, ChainTxs(hashOf, rest));
      var (n, q) := VarInt(s, HEADER_SIZE).value;
      TxsFromBytes(hashOf, s, q, n);
      MoreBlocks(hashOf, [s], blocks, TxsAt(hashOf, s, q, n).value.0);
    }
  }

  /** Two transactions of a chain with one hash are the same, or two different strings of its bytes hash alike. */
  lemma {:induction false} HashesDetermineUnlessCollision(hashOf: seq<Byte> -> Hash, blocks: seq<seq<Byte>>)
    requires forall i :: 0 <= i < |blocks| ==> BlockAt(hashOf, blocks[i]).Some?
    ensures
      || HashesDetermine(ChainTxs(hashOf, blocks))
      || exists a, b :: a != b && hashOf(a) == hashOf(b) && Within(blocks, a) && Within(blocks, b)
  {
    hide BlockAt, ChainTxs, TxAt, Within;
    var txs := ChainTxs(hashOf, blocks);
    ChainFromBytes(hashOf, blocks);
    if !HashesDetermine(txs) {
      var p, q :| p in txs && q in txs && p.0 == q.0 && p != q;
      var a :| FromBytes(hashOf, blocks, p, a);
      var b :| FromBytes(hashOf, blocks, q, b);
      assert a != b && hashOf(a) == hashOf(b);
    }
  }
}
