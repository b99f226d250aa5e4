/** Pass 4: parse the transactions of the longest chain, keeping the index of unspent outputs up to date and
    reporting every output created and every output spent. */
module Parser {
  import opened Types
  import opened TxFormat
  import opened Ledger
  import opened Memory
  import opened Buffers
  import opened Allocator
  import opened IndexState

  /** Why an output is being parsed: where it is created, or, from the stored copy, where it is spent. */
  datatype Context =
    | Creating(hash: Hash, index: nat)
    | Spending(upHash: Hash, upIndex: nat, downHash: Hash, inputIndex: nat)
  {
    function EventFor(value: nat, script: seq<Byte>): Event {
      match this
      case Creating(hash, index) => EndOutput(value, hash, index, script)
      case Spending(upHash, upIndex, downHash, inputIndex) =>
        Edge(value, upHash, upIndex, script, downHash, inputIndex)
    }
  }

  method LoadVarInt(s: seq<Byte>, p: nat) returns (v: nat, q: nat)
    requires VarInt(s, p).Some?
    ensures VarInt(s, p) == Some((v, q))
  {
    var r := s[p];
    if r < 0xFD { return r, p + 1; }
    if r == 0xFD { return LoadLE(s, p + 1, 2), p + 3; }
    if r == 0xFE { return LoadLE(s, p + 1, 4), p + 5; }
    return LoadLE(s, p + 1, 8), p + 9;
  }

  /** The hash of the transaction at `p`: that of the bytes it is parsed from. */
  function HashAt(hashOf: seq<Byte> -> Hash, s: seq<Byte>, p: nat): Hash
    requires TxAt(s, p).Some?
  {
    TxBounds(s, p);
    hashOf(s[p..TxAt(s, p).value.1])
  }

  const HEADER_SIZE: nat := 80

  /** `n` transactions from `p` on, each with its hash. */
  function TxsAt(hashOf: seq<Byte> -> Hash, s: seq<Byte>, p: nat, n: nat): Option<(seq<(Hash, Tx)>, nat)>
    decreases n
  {
    if n == 0 then Some(([], p))
    else
      match TxsAt(hashOf, s, p, n - 1)
      case None => None
      case Some((txs, q)) =>
        match TxAt(s, q)
        case None => None
        case Some((tx, e)) => Some((txs + [(HashAt(hashOf, s, q), tx)], e))
  }

  function BlockAt(hashOf: seq<Byte> -> Hash, s: seq<Byte>): Option<seq<(Hash, Tx)>> {
    match VarInt(s, HEADER_SIZE)
    case None => None
    case Some((n, q)) =>
      match TxsAt(hashOf, s, q, n)
      case None => None
      case Some((txs, _)) => Some(txs)
  }

  /** The transactions of well-formed blocks, in order. */
  function ChainTxs(hashOf: seq<Byte> -> Hash, blocks: seq<seq<Byte>>): seq<(Hash, Tx)>
    requires forall i :: 0 <= i < |blocks| ==> BlockAt(hashOf, blocks[i]).Some?
  {
    if blocks == [] then []
    else ChainTxs(hashOf, blocks[..|blocks| - 1]) + BlockAt(hashOf, blocks[|blocks| - 1]).value
  }

  class TxParser {
    const hashOf: seq<Byte> -> Hash
    const txs: TxAllocator
    const ptrs: PtrAllocator
    var txoMap: map<Hash, Ptr>          // through the TXChunk straight to its array
    var events: seq<Event>              // callbacks made so far
    ghost var utxo: Utxo
    ghost var where: map<OutPoint, Ptr>

    ghost function Repr(): set<object> {
      {this, txs.store, txs.store.heap, ptrs.store, ptrs.store.heap}
    }

    ghost function State(): Index
      reads this`txoMap, this`utxo, this`where, txs.store, ptrs.store
    {
      Index(txoMap, ptrs.store.view, txs.store.view, utxo, where)
    }

    ghost predicate Separate() {
      && this as object != txs.store && this as object != txs.store.heap
      && this as object != ptrs.store && this as object != ptrs.store.heap
      && txs.store as object != txs.store.heap && ptrs.store as object != ptrs.store.heap
      && txs.store as object != ptrs.store && txs.store as object != ptrs.store.heap
      && txs.store.heap as object != ptrs.store && txs.store.heap as object != ptrs.store.heap
    }

    ghost predicate Valid(part: Option<(Hash, nat)>)
      reads this`txoMap, this`utxo, this`where, txs.store, txs.store.heap, ptrs.store, ptrs.store.heap
    {
      Separate() && txs.Valid() && ptrs.Valid() && State().Ok(part)
    }

    constructor (hashOf: seq<Byte> -> Hash)
      ensures fresh(txs.store) && fresh(txs.store.heap) && fresh(ptrs.store) && fresh(ptrs.store.heap)
      ensures Valid(None) && utxo == map[] && events == [] && this.hashOf == hashOf
    {
      this.hashOf := hashOf;
      txs := new TxAllocator();
      ptrs := new PtrAllocator();
      txoMap, events, utxo, where := map[], [], map[], map[];
      new;
      hide BuffersOk, Index.Ok;
      NothingOk();
      assert Separate();
      assert State() == Index(map[], map[], map[], map[], map[]);
    }

    /** The skipping instances of the parse functions touch nothing. */
    ghost function Unless(skip: bool): set<TxParser> {
      if skip then {} else {this}
    }

    /** parseOutput: from the block when the output is created, from the stored copy when it is spent. */
    method ParseOutput(skip: bool, context: Context, s: seq<Byte>, p: nat) returns (q: nat)
      requires OutputAt(s, p).Some?
      modifies Unless(skip)`events
      ensures q == OutputAt(s, p).value.1
      ensures events == old(events) +
        if skip then [] else [context.EventFor(OutputAt(s, p).value.0.value, OutputAt(s, p).value.0.script)]
    {
      var value := LoadLE(s, p, 8);
      q := p + 8;
      var scriptSize;
      scriptSize, q := LoadVarInt(s, q);
      var script := s[q..q + scriptSize];
      q := q + scriptSize;
      if !skip {
        events := events + [context.EventFor(value, script)];
      }
    }

    /** parseInput. Fails, as the program's fatal error does, when the upstream transaction is unknown. */
    method ParseInput(skip: bool, s: seq<Byte>, p: nat, h: Hash, index: nat) returns (q: nat, ok: bool)
      requires InputAt(s, p).Some?
      requires !skip ==> Valid(None) && SpendInput(utxo, InputAt(s, p).value.0) != Unclean
      modifies if skip then {} else Repr()
      ensures ok ==> q == InputAt(s, p).value.1
      ensures skip ==> ok
      ensures !skip ==> ok == (old(SpendInput(utxo, InputAt(s, p).value.0)) != Missing)
      ensures !skip && ok ==> Valid(None) && Next(utxo) == old(SpendInput(utxo, InputAt(s, p).value.0))
      ensures !skip && ok ==> events == old(events + InputEvent(utxo, InputAt(s, p).value.0, h, index))
    {
      hide Index.Ok, BuffersOk, Bijective;
      ok := true;
      var upHash := s[p..p + 32];
      var upTX := false;
      if !skip && upHash != NULL_HASH {
        KnownIffUnspent(upHash);
        if upHash !in txoMap { return p, false; }
        upTX := true;
      }
      q := p + 32;
      var upIndex := LoadLE(s, q, 4);
      q := q + 4;
      var inputScriptSize;
      inputScriptSize, q := LoadVarInt(s, q);
      if upTX {
        Spend(Input(upHash, upIndex, s[q..q + inputScriptSize]), h, index);
      }
      q := q + inputScriptSize + 4;
    }

    method ParseInputs(skip: bool, s: seq<Byte>, p: nat, h: Hash) returns (q: nat, ok: bool)
      requires InputListAt(s, p).Some?
      requires !skip ==> Valid(None) && SpendInputs(utxo, InputListAt(s, p).value.0) != Unclean
      modifies if skip then {} else Repr()
      ensures skip ==> ok
      ensures ok ==> q == InputListAt(s, p).value.1
      ensures !skip ==> ok == (old(SpendInputs(utxo, InputListAt(s, p).value.0)) != Missing)
      ensures !skip && ok ==> Valid(None) && Next(utxo) == old(SpendInputs(utxo, InputListAt(s, p).value.0))
      ensures !skip && ok ==> events == old(events + InputEvents(utxo, InputListAt(s, p).value.0, h))
    {
      hide Index.Ok, BuffersOk, Bijective, TxParser.Valid, InputsAt, InputAt;
      hide SpendInputs, SpendInput, InputEvents, InputEvent;
      ghost var u, log := utxo, events;
      ghost var ins := InputListAt(s, p).value.0;
      var nbInputs;
      nbInputs, q := LoadVarInt(s, p);
      ghost var start := q;
      var inputIndex := 0;
      NoInputs(u, ins, s, start, nbInputs, h);
      while inputIndex < nbInputs
        invariant 0 <= inputIndex <= nbInputs
        invariant InputsAt(s, start, inputIndex) == Some((ins[..inputIndex], q))
        invariant !skip ==> Valid(None) && SpendInputs(u, ins[..inputIndex]) == Next(utxo)
        invariant !skip ==> events == log + InputEvents(u, ins[..inputIndex], h)
      {
        InputsStep(s, start, inputIndex, nbInputs);
        if !skip { InputStep(u, ins, inputIndex, h); }
        q, ok := ParseInput(skip, s, q, h, inputIndex);
        if !ok { return q, false; }
        inputIndex := inputIndex + 1;
      }
      assert ins[..nbInputs] == ins;
      ok := true;
    }

    method ParseOutputs(skip: bool, s: seq<Byte>, p: nat, h: Hash) returns (q: nat)
      requires OutputListAt(s, p).Some?
      requires !skip ==> Valid(None) && !HasUnspent(utxo, h) && OutputListAt(s, p).value.0 != []
      modifies if skip then {} else Repr()
      ensures q == OutputListAt(s, p).value.1
      ensures !skip ==> Valid(None) && utxo == AddOutputs(old(utxo), h, OutputListAt(s, p).value.0)
      ensures !skip ==> events == old(events) + OutputEvents(h, OutputListAt(s, p).value.0)
    {
      hide Index.Ok, BuffersOk, Bijective, TxParser.Valid, OutputsAt, OutputAt, AddOutputs, OutputEvents;
      ghost var u, log := utxo, events;
      ghost var outs := OutputListAt(s, p).value.0;
      var nbOutputs;
      nbOutputs, q := LoadVarInt(s, p);
      ghost var start := q;
      NoOutputs(u, outs, s, start, nbOutputs, h);
      var a := Ptr(0, 0);
      if !skip {
        a := OpenEntry(h, nbOutputs);
      }
      for outputIndex := 0 to nbOutputs
        invariant OutputsAt(s, start, outputIndex) == Some((outs[..outputIndex], q))
        invariant !skip ==> Building(h, a, nbOutputs, outputIndex)
        invariant !skip ==> utxo == AddOutputs(u, h, outs[..outputIndex])
        invariant !skip ==> events == log + OutputEvents(h, outs[..outputIndex])
      {
        OutputsStep(s, start, outputIndex, nbOutputs);
        OutputStep(u, outs, outputIndex, h);
        var outputStart := q;
        ghost var o := outs[outputIndex];
        q := ParseOutput(skip, Creating(h, outputIndex), s, q);
        if !skip {
          RawOf(s, outputStart);
          StoreOutput(h, a, nbOutputs, outputIndex, s[outputStart..q], o);
        }
      }
      if !skip {
        CloseEntry(u, h, a, outs);
      }
    }

    /** The entry of `h` is under construction: array `a` of `n` cells, the first `k` of them settled. */
    ghost predicate Building(h: Hash, a: Ptr, n: nat, k: nat)
      reads this`txoMap, this`utxo, this`where, txs.store, txs.store.heap, ptrs.store, ptrs.store.heap
    {
      && h in txoMap && txoMap[h] == a && a in ptrs.store.view && |ptrs.store.view[a]| == n
      && Valid(Some((h, k)))
    }

    /** The new entry with its array, cells still holding whatever was there before. */
    method OpenEntry(h: Hash, n: nat) returns (a: Ptr)
      requires Valid(None) && !HasUnspent(utxo, h) && n > 0
      modifies this`txoMap, ptrs.store, ptrs.store.heap
      ensures Building(h, a, n, 0)
    {
      hide Index.Ok, BuffersOk, Bijective, HasUnspent;
      ghost var before := State();
      a := ptrs.AllocPtrs(n);
      before.OpenedOk(h, a, ptrs.store.view[a]);
      txoMap := txoMap[h := a];
    }

    /** Copies the raw bytes of an output into a buffer and points the next cell at it. */
    method StoreOutput(h: Hash, a: Ptr, ghost n: nat, k: nat, raw: seq<Byte>, ghost o: Output)
      requires Building(h, a, n, k) && k < n && o.raw == raw && Reparses(o)
      modifies Repr()
      ensures Building(h, a, n, k + 1) && events == old(events) && utxo == old(utxo)[OutPoint(h, k) := o]
    {
      hide Index.Ok, BuffersOk, Bijective;
      ghost var before := State();
      var data := CopyRaw(raw);
      before.StoredOk(h, k, data, o);
      ptrs.Store(a, k, Address(data));
      utxo, where := utxo[OutPoint(h, k) := o], where[OutPoint(h, k) := data];
    }

    method CopyRaw(raw: seq<Byte>) returns (data: Ptr)
      requires txs.Valid() && Separate()
      modifies txs.store, txs.store.heap
      ensures txs.Valid() && data !in old(txs.store.view) && txs.store.view == old(txs.store.view)[data := raw]
    {
      hide BuffersOk;
      data := txs.AllocTX(|raw|);
      txs.store.Fill(data, raw);
    }

    lemma {:induction false} CloseEntry(u: Utxo, h: Hash, a: Ptr, outs: seq<Output>)
      requires Building(h, a, |outs|, |outs|) && outs != []
      requires !HasUnspent(u, h) && utxo == AddOutputs(u, h, outs)
      ensures Valid(None)
    {
      hide Index.Ok, BuffersOk, Bijective;
      AddOutputsHas(u, h, outs);
      assert OutPoint(h, 0) in utxo;
      State().ClosedOk(h);
    }

    /** parseTX. The full parse first skips over the transaction to find the bytes its hash covers. */
    method ParseTX(skip: bool, s: seq<Byte>, p: nat) returns (q: nat, ok: bool)
      requires TxAt(s, p).Some?
      requires !skip ==> Valid(None) && ApplyTx(utxo, HashAt(hashOf, s, p), TxAt(s, p).value.0) != Unclean
      modifies if skip then {} else Repr()
      ensures skip ==> ok
      ensures ok ==> q == TxAt(s, p).value.1
      ensures !skip ==> ok == (old(ApplyTx(utxo, HashAt(hashOf, s, p), TxAt(s, p).value.0)) != Missing)
      ensures !skip && ok ==>
        Valid(None) && Next(utxo) == old(ApplyTx(utxo, HashAt(hashOf, s, p), TxAt(s, p).value.0))
      ensures !skip && ok ==> events == old(events + TxEvents(utxo, HashAt(hashOf, s, p), TxAt(s, p).value.0))
      decreases !skip
    {
      hide Index.Ok, BuffersOk, Bijective, TxParser.Valid, InputListAt, OutputListAt, SpendInputs, AddOutputs;
      hide InputEvents, OutputEvents;
      var txStart := p;
      var txHash := [];
      if !skip {
        var txEnd, _ := ParseTX(true, s, p);
        TxBounds(s, p);
        txHash := hashOf(s[txStart..txEnd]);
        events := events + [StartTX(txHash)];
      }
      q := p + 4;
      q, ok := ParseInputs(skip, s, q, txHash);
      if !ok { return; }
      q := ParseOutputs(skip, s, q, txHash);
      q := q + 4;
      if !skip {
        events := events + [EndTX];
      }
    }

    /** parseBlock: an 80-byte header, a count, that many transactions. */
    method ParseBlock(s: seq<Byte>) returns (ok: bool)
      requires BlockAt(hashOf, s).Some?
      requires Valid(None) && ApplyAll(utxo, BlockAt(hashOf, s).value) != Unclean
      modifies Repr()
      ensures ok == (old(ApplyAll(utxo, BlockAt(hashOf, s).value)) != Missing)
      ensures ok ==> Valid(None) && Next(utxo) == old(ApplyAll(utxo, BlockAt(hashOf, s).value))
      ensures ok ==> events == old(events + AllEvents(utxo, BlockAt(hashOf, s).value))
    {
      hide Index.Ok, BuffersOk, Bijective, TxParser.Valid, TxAt, TxsAt, ApplyTx, ApplyAll, TxEvents, AllEvents, HashAt;
      ghost var u, log := utxo, events;
      ghost var txs := BlockAt(hashOf, s).value;
      var nbTX, p := LoadVarInt(s, HEADER_SIZE);
      ghost var start := p;
      NoTxs(hashOf, u, txs, s, start, nbTX);
      for txIndex := 0 to nbTX
        invariant TxsAt(hashOf, s, start, txIndex) == Some((txs[..txIndex], p))
        invariant Valid(None) && ApplyAll(u, txs[..txIndex]) == Next(utxo)
        invariant events == log + AllEvents(u, txs[..txIndex])
      {
        TxsStep(hashOf, s, start, txIndex, nbTX);
        ApplyStep(u, txs, txIndex);
        p, ok := ParseTX(false, s, p);
        if !ok { return; }
      }
      ok := true;
    }

    /** Pass 4 over the blocks of the longest chain, from an empty index. */
    method ParseChain(blocks: seq<seq<Byte>>) returns (ok: bool)
      requires Valid(None) && utxo == map[] && events == []
      requires forall i :: 0 <= i < |blocks| ==> BlockAt(hashOf, blocks[i]).Some?
      requires ApplyAll(map[], ChainTxs(hashOf, blocks)) != Unclean
      modifies Repr()
      ensures ok == (ApplyAll(map[], ChainTxs(hashOf, blocks)) != Missing)
      ensures ok ==> Valid(None) && Next(utxo) == ApplyAll(map[], ChainTxs(hashOf, blocks))
      ensures ok ==> events == AllEvents(map[], ChainTxs(hashOf, blocks))
    {
      hide Index.Ok, BuffersOk, Bijective, TxParser.Valid, TxAt, TxsAt, BlockAt, ApplyAll, AllEvents;
      NoBlocks(hashOf);
      assert blocks[..0] == [];
      for k := 0 to |blocks|
        invariant Valid(None) && ApplyAll(map[], ChainTxs(hashOf, blocks[..k])) == Next(utxo)
        invariant events == AllEvents(map[], ChainTxs(hashOf, blocks[..k]))
      {
        BlockStep(hashOf, blocks, k);
        ok := ParseBlock(blocks[k]);
        if !ok { return; }
      }
      assert blocks[..|blocks|] == blocks;
      ok := true;
    }

    /** The live counts of the allocator: one buffer per unspent output, one array per transaction kept. */
    lemma LiveCounts()
      requires Valid(None)
      ensures txs.store.count == |utxo.Keys| && ptrs.store.count == |txoMap|
    {
      hide Index.Ok, BuffersOk;
      State().Counts();
      assert |txs.store.view| == |txs.store.view.Keys| && |ptrs.store.view| == |ptrs.store.view.Keys|;
    }

    /** A transaction is in the index exactly when some output of it is unspent. */
    lemma KnownIffUnspent(h: Hash)
      requires Valid(None)
      ensures h in txoMap <==> HasUnspent(utxo, h)
    {
      hide BuffersOk, Bijective;
      assert h in txoMap ==> State().EntryOk(h, None);
      forall k: nat | OutPoint(h, k) in utxo ensures h in txoMap { assert State().OutputOk(OutPoint(h, k), None); }
    }

    /** The part of parseInput that spends: report the stored output, free its copy, null its cell, and drop
        the whole entry when it was the last one. */
    method Spend(i: Input, h: Hash, index: nat)
      requires Valid(None) && OutPoint(i.upHash, i.upIndex) in utxo
      requires i.upHash in txoMap && i.upHash != NULL_HASH
      modifies Repr()
      ensures Valid(None) && utxo == old(utxo) - {OutPoint(i.upHash, i.upIndex)}
      ensures events == old(events + InputEvent(utxo, i, h, index))
    {
      hide Index.Ok, BuffersOk, Bijective;
      var op := OutPoint(i.upHash, i.upIndex);
      var a := txoMap[i.upHash];
      Unspent(op);
      var cell := ptrs.Load(a, i.upIndex);
      Report(i, cell.p, h, index);
      FreeOutput(op, a, cell.p);
      DropIfSpent(i.upHash, a);
    }

    /** Counts the outputs left and gives the entry up when there are none. */
    method DropIfSpent(h: Hash, a: Ptr)
      requires h in txoMap && a == txoMap[h] && a in ptrs.store.view
      requires Valid(Some((h, |ptrs.store.view[a]|)))
      modifies this`txoMap, ptrs.store, ptrs.store.heap
      ensures Valid(None)
    {
      hide Index.Ok, BuffersOk, Bijective;
      var left := ptrs.CountNonNullPtrs(a);
      State().NullWhenSpent(h);
      if left == 0 {
        State().DroppedOk(h);
        txoMap := txoMap - {h};
        ptrs.store.Return(a);
      } else {
        State().ClosedOk(h);
      }
    }

    /** What the index holds for an unspent output. */
    lemma Unspent(op: OutPoint)
      requires Valid(None) && op in utxo
      ensures op.hash in txoMap && txoMap[op.hash] in ptrs.store.view
      ensures op.index < |ptrs.store.view[txoMap[op.hash]]| && op in where && where[op] in txs.store.view
      ensures ptrs.store.view[txoMap[op.hash]][op.index] == Address(where[op])
      ensures txs.store.view[where[op]] == utxo[op].raw && Reparses(utxo[op])
    {
      hide BuffersOk, Bijective;
      assert State().OutputOk(op, None);
    }

    /** The edge event, read back from the stored copy. */
    method Report(i: Input, data: Ptr, h: Hash, index: nat)
      requires Valid(None) && OutPoint(i.upHash, i.upIndex) in utxo && i.upHash != NULL_HASH
      requires data in txs.store.view && Reparses(utxo[OutPoint(i.upHash, i.upIndex)])
      requires txs.store.view[data] == utxo[OutPoint(i.upHash, i.upIndex)].raw
      modifies this`events
      ensures Valid(None) && events == old(events + InputEvent(utxo, i, h, index))
    {
      hide Index.Ok, BuffersOk, Bijective, VarInt, Script;
      var raw := txs.store.Peek(data);
      ghost var o := utxo[OutPoint(i.upHash, i.upIndex)];
      ReadAgain(o, raw);
      var _ := ParseOutput(false, Spending(i.upHash, i.upIndex, h, index), raw, 0);
    }

    method FreeTX(data: Ptr)
      requires txs.Valid() && Separate() && data in txs.store.view
      modifies txs.store, txs.store.heap
      ensures txs.Valid() && txs.store.view == old(txs.store.view) - {data}
    {
      hide BuffersOk;
      txs.store.Return(data);
    }

    /** freeTX and the nulling of the cell. */
    method FreeOutput(op: OutPoint, a: Ptr, data: Ptr)
      requires Valid(None) && op in utxo && op in where && data == where[op] && data in txs.store.view
      requires op.hash in txoMap && a == txoMap[op.hash] && a in ptrs.store.view && op.index < |ptrs.store.view[a]|
      modifies Repr()
      ensures txoMap == old(txoMap) && events == old(events) && utxo == old(utxo) - {op}
      ensures a in ptrs.store.view && Valid(Some((op.hash, |ptrs.store.view[a]|)))
    {
      hide Index.Ok, BuffersOk, Bijective;
      ghost var before := State();
      before.NulledOk(op);
      hide Index.OutputOk;
      FreeTX(data);
      ptrs.Store(a, op.index, Null);
      utxo, where := utxo - {op}, where - {op};
    }
  }

  lemma {:induction false} NoOutputs(u: Utxo, outs: seq<Output>, s: seq<Byte>, p: nat, n: nat, h: Hash)
    requires OutputsAt(s, p, n).Some? && outs == OutputsAt(s, p, n).value.0
    ensures |outs| == n && outs[..n] == outs && OutputsAt(s, p, 0) == Some((outs[..0], p))
    ensures AddOutputs(u, h, outs[..0]) == u && OutputEvents(h, outs[..0]) == []
  {
    OutputsPrefix(s, p, 0, n);
  }

  lemma {:induction false} OutputStep(u: Utxo, outs: seq<Output>, k: nat, h: Hash)
    requires k < |outs|
    ensures AddOutputs(u, h, outs[..k + 1]) == AddOutputs(u, h, outs[..k])[OutPoint(h, k) := outs[k]]
    ensures OutputEvents(h, outs[..k + 1]) ==
      OutputEvents(h, outs[..k]) + [Creating(h, k).EventFor(outs[k].value, outs[k].script)]
  {
    assert outs[..k + 1][..k] == outs[..k];
  }

  lemma RawOf(s: seq<Byte>, p: nat)
    requires OutputAt(s, p).Some?
    ensures p <= OutputAt(s, p).value.1 <= |s|
    ensures OutputAt(s, p).value.0.raw == s[p..OutputAt(s, p).value.1] && Reparses(OutputAt(s, p).value.0)
  {
    OutputBounds(s, p);
    ReadReparses(s, p);
  }

  lemma {:induction false} TxsPrefix(hashOf: seq<Byte> -> Hash, s: seq<Byte>, p: nat, k: nat, n: nat)
    requires k <= n && TxsAt(hashOf, s, p, n).Some?
    ensures |TxsAt(hashOf, s, p, n).value.0| == n
    ensures TxsAt(hashOf, s, p, k).Some?
    ensures TxsAt(hashOf, s, p, k).value.0 == TxsAt(hashOf, s, p, n).value.0[..k]
    decreases n
  {
    hide TxAt, HashAt;
    if k < n {
      TxsPrefix(hashOf, s, p, k, n - 1);
    } else if n > 0 {
      TxsPrefix(hashOf, s, p, n - 1, n - 1);
    }
  }

  lemma TxsStep(hashOf: seq<Byte> -> Hash, s: seq<Byte>, p: nat, k: nat, n: nat)
    requires k < n && TxsAt(hashOf, s, p, n).Some? && TxsAt(hashOf, s, p, k).Some?
    ensures |TxsAt(hashOf, s, p, n).value.0| == n
    ensures TxAt(s, TxsAt(hashOf, s, p, k).value.1).Some?
    ensures
      var q, txs := TxsAt(hashOf, s, p, k).value.1, TxsAt(hashOf, s, p, n).value.0;
      && txs[k] == (HashAt(hashOf, s, q), TxAt(s, q).value.0)
      && TxsAt(hashOf, s, p, k + 1) == Some((txs[..k + 1], TxAt(s, q).value.1))
  {
    hide TxAt, HashAt;
    TxsPrefix(hashOf, s, p, k + 1, n);
    assert TxsAt(hashOf, s, p, k + 1).value.0[k] == TxsAt(hashOf, s, p, n).value.0[k];
  }

  lemma {:induction false} NoTxs(hashOf: seq<Byte> -> Hash, u: Utxo, txs: seq<(Hash, Tx)>, s: seq<Byte>, p: nat, n: nat)
    requires TxsAt(hashOf, s, p, n).Some? && txs == TxsAt(hashOf, s, p, n).value.0
    ensures |txs| == n && txs[..n] == txs && TxsAt(hashOf, s, p, 0) == Some((txs[..0], p))
    ensures ApplyAll(u, txs[..0]) == Next(u) && AllEvents(u, txs[..0]) == []
  {
    TxsPrefix(hashOf, s, p, 0, n);
  }

  lemma {:induction false} ApplyStep(u: Utxo, txs: seq<(Hash, Tx)>, k: nat)
    requires k < |txs| && ApplyAll(u, txs[..k]).Next?
    ensures ApplyAll(u, txs[..k + 1]) == ApplyTx(ApplyAll(u, txs[..k]).utxo, txs[k].0, txs[k].1)
    ensures !ApplyAll(u, txs[..k + 1]).Next? ==> ApplyAll(u, txs) == ApplyAll(u, txs[..k + 1])
    ensures AllEvents(u, txs[..k + 1]) ==
      AllEvents(u, txs[..k]) + TxEvents(ApplyAll(u, txs[..k]).utxo, txs[k].0, txs[k].1)
  {
    hide ApplyTx, TxEvents;
    assert txs[..k + 1][..k] == txs[..k];
    if !ApplyAll(u, txs[..k + 1]).Next? {
      AppliedStays(u, txs, k + 1);
    }
  }

  lemma {:induction false} AppliedStays(u: Utxo, txs: seq<(Hash, Tx)>, k: nat)
    requires k <= |txs| && !ApplyAll(u, txs[..k]).Next?
    ensures ApplyAll(u, txs) == ApplyAll(u, txs[..k])
    decreases |txs|
  {
    hide ApplyTx;
    if k < |txs| {
      assert txs[..|txs| - 1][..k] == txs[..k];
      AppliedStays(u, txs[..|txs| - 1], k);
    } else {
      assert txs[..k] == txs;
    }
  }

  /** Applying a list in two parts. */
  lemma {:induction false} ApplyConcat(u: Utxo, a: seq<(Hash, Tx)>, b: seq<(Hash, Tx)>)
    requires ApplyAll(u, a).Next?
    ensures ApplyAll(u, a + b) == ApplyAll(ApplyAll(u, a).utxo, b)
    ensures AllEvents(u, a + b) == AllEvents(u, a) + AllEvents(ApplyAll(u, a).utxo, b)
    decreases |b|
  {
    hide ApplyTx, TxEvents, AllEvents;
    if b == [] {
      assert a + b == a;
      NoEvents(ApplyAll(u, a).utxo);
    } else {
      var n := |b| - 1;
      ApplyConcat(u, a, b[..n]);
      assert (a + b)[..|a + b| - 1] == a + b[..n];
      LastEvents(u, a + b);
      LastEvents(ApplyAll(u, a).utxo, b);
    }
  }

  lemma NoEvents(u: Utxo)
    ensures AllEvents(u, []) == []
  {
  }

  /** The events of the last transaction of a run, if the run gets that far. */
  ghost function EventsFrom(before: Outcome, tx: (Hash, Tx)): seq<Event> {
    match before
    case Next(v) => TxEvents(v, tx.0, tx.1)
    case _ => []
  }

  lemma {:induction false} LastEvents(u: Utxo, txs: seq<(Hash, Tx)>)
    requires txs != []
    ensures
      var n := |txs| - 1;
      AllEvents(u, txs) == AllEvents(u, txs[..n]) + EventsFrom(ApplyAll(u, txs[..n]), txs[n])
  {
    hide ApplyAll, TxEvents;
  }

  lemma NoBlocks(hashOf: seq<Byte> -> Hash)
    ensures ApplyAll(map[], ChainTxs(hashOf, [])) == Next(map[]) && AllEvents(map[], ChainTxs(hashOf, [])) == []
  {
  }

  lemma {:induction false} BlockStep(hashOf: seq<Byte> -> Hash, blocks: seq<seq<Byte>>, k: nat)
    requires forall i :: 0 <= i < |blocks| ==> BlockAt(hashOf, blocks[i]).Some?
    requires k < |blocks| && ApplyAll(map[], ChainTxs(hashOf, blocks[..k])).Next?
    ensures
      var u, txs := ApplyAll(map[], ChainTxs(hashOf, blocks[..k])).utxo, BlockAt(hashOf, blocks[k]).value;
      && ApplyAll(map[], ChainTxs(hashOf, blocks[..k + 1])) == ApplyAll(u, txs)
      && AllEvents(map[], ChainTxs(hashOf, blocks[..k + 1])) ==
         AllEvents(map[], ChainTxs(hashOf, blocks[..k])) + AllEvents(u, txs)
      && (!ApplyAll(u, txs).Next? ==> ApplyAll(map[], ChainTxs(hashOf, blocks)) == ApplyAll(u, txs))
  {
    hide BlockAt, ApplyAll, AllEvents;
    assert blocks[..k + 1][..k] == blocks[..k];
    ApplyConcat(map[], ChainTxs(hashOf, blocks[..k]), BlockAt(hashOf, blocks[k]).value);
    ChainPrefix(hashOf, blocks, k + 1);
  }

  lemma {:induction false} ChainPrefix(hashOf: seq<Byte> -> Hash, blocks: seq<seq<Byte>>, k: nat)
    requires forall i :: 0 <= i < |blocks| ==> BlockAt(hashOf, blocks[i]).Some?
    requires k <= |blocks|
    ensures !ApplyAll(map[], ChainTxs(hashOf, blocks[..k])).Next? ==>
      ApplyAll(map[], ChainTxs(hashOf, blocks)) == ApplyAll(map[], ChainTxs(hashOf, blocks[..k]))
    decreases |blocks|
  {
    hide BlockAt, ApplyAll;
    if k < |blocks| {
      var n := |blocks| - 1;
      ChainPrefix(hashOf, blocks[..n], k);
      assert blocks[..n][..k] == blocks[..k];
      var before := ChainTxs(hashOf, blocks[..n]);
      if !ApplyAll(map[], before).Next? {
        assert ChainTxs(hashOf, blocks)[..|before|] == before;
        AppliedStays(map[], ChainTxs(hashOf, blocks), |before|);
      }
    } else {
      assert blocks[..k] == blocks;
    }
  }

  lemma {:induction false} NoInputs(u: Utxo, ins: seq<Input>, s: seq<Byte>, p: nat, n: nat, h: Hash)
    requires InputsAt(s, p, n).Some? && ins == InputsAt(s, p, n).value.0
    ensures |ins| == n && ins[..n] == ins && InputsAt(s, p, 0) == Some((ins[..0], p))
    ensures SpendInputs(u, ins[..0]) == Next(u) && InputEvents(u, ins[..0], h) == []
  {
    InputsPrefix(s, p, 0, n);
  }

  lemma {:induction false} InputStep(u: Utxo, ins: seq<Input>, k: nat, h: Hash)
    requires k < |ins| && SpendInputs(u, ins) != Unclean && SpendInputs(u, ins[..k]).Next?
    ensures SpendInputs(u, ins[..k + 1]) == SpendInput(SpendInputs(u, ins[..k]).utxo, ins[k])
    ensures !SpendInputs(u, ins[..k + 1]).Next? ==> SpendInputs(u, ins) == SpendInputs(u, ins[..k + 1])
    ensures InputEvents(u, ins[..k + 1], h) ==
      InputEvents(u, ins[..k], h) + InputEvent(SpendInputs(u, ins[..k]).utxo, ins[k], h, k)
  {
    assert ins[..k + 1][..k] == ins[..k];
    if !SpendInputs(u, ins[..k + 1]).Next? {
      OutcomeStays(u, ins, k + 1);
    }
  }

  /** Once a prefix of the inputs fails, the whole list fails in the same way. */
  lemma {:induction false} OutcomeStays(u: Utxo, ins: seq<Input>, k: nat)
    requires k <= |ins| && !SpendInputs(u, ins[..k]).Next?
    ensures SpendInputs(u, ins) == SpendInputs(u, ins[..k])
    decreases |ins|
  {
    if k < |ins| {
      assert ins[..|ins| - 1][..k] == ins[..k];
      OutcomeStays(u, ins[..|ins| - 1], k);
    } else {
      assert ins[..k] == ins;
    }
  }

  /** A stored output followed by anything at all still reads as that output. */
  lemma ReadAgain(o: Output, s: seq<Byte>)
    requires Reparses(o) && |o.raw| <= |s| && s[..|o.raw|] == o.raw
    ensures OutputAt(s, 0).Some? && OutputAt(s, 0).value.0 == o
  {
    hide VarInt, Script;
    forall i {:trigger o.raw[i]} | 0 <= i < |o.raw| ensures s[i] == o.raw[i] { assert s[..|o.raw|][i] == o.raw[i]; }
    OutputSame(o.raw, 0, s, 0);
  }
}
