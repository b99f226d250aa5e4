/** The plain ledger: a map of unspent outputs, what a transaction does to it, and the events it causes. */
module Ledger {
  import opened Types
  import opened TxFormat

  datatype OutPoint = OutPoint(hash: Hash, index: nat)
  type Utxo = map<OutPoint, Output>

  /** The callbacks the analyses use. */
  datatype Event =
    | StartTX(hash: Hash)
    | Edge(value: nat, upHash: Hash, upIndex: nat, script: seq<Byte>, downHash: Hash, inputIndex: nat)
    | EndOutput(value: nat, hash: Hash, index: nat, script: seq<Byte>)
    | EndTX

  /** `Missing`: no unspent output of the upstream transaction exists, a fatal error of the program.
      `Unclean`: the chain breaks a rule the program takes for granted. */
  datatype Outcome = Next(utxo: Utxo) | Missing | Unclean

  ghost predicate HasUnspent(u: Utxo, h: Hash) {
    exists k: nat :: OutPoint(h, k) in u
  }

  ghost function SpendInput(u: Utxo, i: Input): Outcome {
    var op := OutPoint(i.upHash, i.upIndex);
    if i.upHash == NULL_HASH then Next(u)
    else if !HasUnspent(u, i.upHash) then Missing
    else if op !in u then Unclean
    else Next(u - {op})
  }

  ghost function SpendInputs(u: Utxo, ins: seq<Input>): Outcome {
    if ins == [] then Next(u)
    else
      match SpendInputs(u, ins[..|ins| - 1])
      case Next(v) => SpendInput(v, ins[|ins| - 1])
      case other => other
  }

  ghost function AddOutputs(u: Utxo, h: Hash, outs: seq<Output>): Utxo {
    if outs == [] then u
    else
      var n := |outs| - 1;
      AddOutputs(u, h, outs[..n])[OutPoint(h, n) := outs[n]]
  }

  /** One transaction: its inputs are spent in order, then its outputs appear. Clean chains have no
      transaction without outputs and no hash that repeats while still unspent. */
  ghost function ApplyTx(u: Utxo, h: Hash, tx: Tx): Outcome {
    match SpendInputs(u, tx.inputs)
    case Next(v) => if tx.outputs == [] || HasUnspent(v, h) then Unclean else Next(AddOutputs(v, h, tx.outputs))
    case other => other
  }

  // ---------------------------------------------------------------------------------
  // Events

  /** A spent output is reported with the value and script it was created with; a coinbase input is not. */
  ghost function InputEvent(u: Utxo, i: Input, h: Hash, index: nat): seq<Event> {
    var op := OutPoint(i.upHash, i.upIndex);
    if i.upHash != NULL_HASH && op in u then [Edge(u[op].value, i.upHash, i.upIndex, u[op].script, h, index)] else []
  }

  ghost function InputEvents(u: Utxo, ins: seq<Input>, h: Hash): seq<Event> {
    if ins == [] then []
    else
      var n := |ins| - 1;
      InputEvents(u, ins[..n], h) +
      match SpendInputs(u, ins[..n])
      case Next(v) => InputEvent(v, ins[n], h, n)
      case other => []
  }

  function OutputEvents(h: Hash, outs: seq<Output>): seq<Event> {
    if outs == [] then []
    else
      var n := |outs| - 1;
      OutputEvents(h, outs[..n]) + [EndOutput(outs[n].value, h, n, outs[n].script)]
  }

  ghost function TxEvents(u: Utxo, h: Hash, tx: Tx): seq<Event> {
    [StartTX(h)] + InputEvents(u, tx.inputs, h) + OutputEvents(h, tx.outputs) + [EndTX]
  }

  /** A list of transactions with their hashes, applied in order. */
  ghost function ApplyAll(u: Utxo, txs: seq<(Hash, Tx)>): Outcome {
    if txs == [] then Next(u)
    else
      match ApplyAll(u, txs[..|txs| - 1])
      case Next(v) => ApplyTx(v, txs[|txs| - 1].0, txs[|txs| - 1].1)
      case other => other
  }

  ghost function AllEvents(u: Utxo, txs: seq<(Hash, Tx)>): seq<Event> {
    if txs == [] then []
    else
      var n := |txs| - 1;
      AllEvents(u, txs[..n]) +
      match ApplyAll(u, txs[..n])
      case Next(v) => TxEvents(v, txs[n].0, txs[n].1)
      case other => []
  }

  // ---------------------------------------------------------------------------------
  // Facts used by the index and the analyses

  lemma {:induction false} SpendInputsPrefix(u: Utxo, ins: seq<Input>, k: nat)
    requires k <= |ins| && SpendInputs(u, ins).Next?
    ensures SpendInputs(u, ins[..k]).Next?
    decreases |ins|
  {
    if k < |ins| {
      SpendInputsPrefix(u, ins[..|ins| - 1], k);
      assert ins[..|ins| - 1][..k] == ins[..k];
    } else {
      assert ins[..k] == ins;
    }
  }

  /** Spending changes no output that is left, and every input that is no coinbase names one that was there. */
  lemma {:induction false} SpendInputsFrom(u: Utxo, ins: seq<Input>)
    requires SpendInputs(u, ins).Next?
    ensures forall op :: op in SpendInputs(u, ins).utxo ==> op in u && SpendInputs(u, ins).utxo[op] == u[op]
    ensures forall i :: i in ins && i.upHash != NULL_HASH ==> OutPoint(i.upHash, i.upIndex) in u
  {
    if ins == [] {
    } else {
      SpendInputsFrom(u, ins[..|ins| - 1]);
      assert ins == ins[..|ins| - 1] + [ins[|ins| - 1]];
    }
  }

  lemma {:induction false} ApplyAllPrefix(u: Utxo, txs: seq<(Hash, Tx)>, k: nat)
    requires k <= |txs| && ApplyAll(u, txs).Next?
    ensures ApplyAll(u, txs[..k]).Next?
    decreases |txs|
  {
    hide ApplyTx;
    if k < |txs| {
      ApplyAllPrefix(u, txs[..|txs| - 1], k);
      assert txs[..|txs| - 1][..k] == txs[..k];
    } else {
      assert txs[..k] == txs;
    }
  }

  lemma {:induction false} AddOutputsHas(u: Utxo, h: Hash, outs: seq<Output>)
    requires !HasUnspent(u, h)
    ensures forall op :: op in AddOutputs(u, h, outs) <==> op in u || (op.hash == h && op.index < |outs|)
    ensures forall op :: op in AddOutputs(u, h, outs) ==>
      AddOutputs(u, h, outs)[op] == if op in u then u[op] else outs[op.index]
  {
    if outs == [] {
    } else {
      AddOutputsHas(u, h, outs[..|outs| - 1]);
      assert OutPoint(h, |outs| - 1) !in u;
    }
  }

  // ---------------------------------------------------------------------------------
  // What the events alone say about the ledger

  /** What an analysis can know of an unspent output. */
  datatype Coin = Coin(value: nat, script: seq<Byte>)
  type Coins = map<OutPoint, Coin>

  ghost function CoinsOf(u: Utxo): Coins {
    map op | op in u :: Coin(u[op].value, u[op].script)
  }

  /** The coins after an event; None when the event spends what is not there, reports another value or script
      than the coin was created with, or creates what is there already. */
  function PlayOne(c: Coins, e: Event): Option<Coins> {
    match e
    case Edge(value, h, i, script, _, _) =>
      if OutPoint(h, i) in c && c[OutPoint(h, i)] == Coin(value, script) then Some(c - {OutPoint(h, i)}) else None
    case EndOutput(value, h, i, script) =>
      if OutPoint(h, i) in c then None else Some(c[OutPoint(h, i) := Coin(value, script)])
    case _ => Some(c)
  }

  function Play(c: Coins, events: seq<Event>): Option<Coins> {
    if events == [] then Some(c)
    else
      match Play(c, events[..|events| - 1])
      case None => None
      case Some(d) => PlayOne(d, events[|events| - 1])
  }

  lemma {:induction false} PlayConcat(c: Coins, a: seq<Event>, b: seq<Event>)
    requires Play(c, a).Some?
    ensures Play(c, a + b) == Play(Play(c, a).value, b)
    decreases |b|
  {
    hide PlayOne;
    if b == [] {
      assert a + b == a;
    } else {
      PlayConcat(c, a, b[..|b| - 1]);
      assert (a + b)[..|a + b| - 1] == a + b[..|b| - 1];
    }
  }

  /** Every edge reports the value and script its output was created with, and is the only one to spend it. */
  lemma {:induction false} InputsPlay(u: Utxo, ins: seq<Input>, h: Hash)
    requires SpendInputs(u, ins).Next?
    ensures Play(CoinsOf(u), InputEvents(u, ins, h)) == Some(CoinsOf(SpendInputs(u, ins).utxo))
  {
    if ins == [] {
    } else {
      var n := |ins| - 1;
      InputsPlay(u, ins[..n], h);
      var v := SpendInputs(u, ins[..n]).utxo;
      InputPlays(v, ins[n], h, n);
      PlayConcat(CoinsOf(u), InputEvents(u, ins[..n], h), InputEvent(v, ins[n], h, n));
    }
  }

  lemma InputPlays(u: Utxo, i: Input, h: Hash, index: nat)
    requires SpendInput(u, i).Next?
    ensures Play(CoinsOf(u), InputEvent(u, i, h, index)) == Some(CoinsOf(SpendInput(u, i).utxo))
  {
    var op, e := OutPoint(i.upHash, i.upIndex), InputEvent(u, i, h, index);
    if e != [] {
      assert e[..0] == [];
      assert CoinsOf(u - {op}) == CoinsOf(u) - {op};
    }
  }

  lemma {:induction false} OutputsPlay(u: Utxo, h: Hash, outs: seq<Output>)
    requires !HasUnspent(u, h)
    ensures Play(CoinsOf(u), OutputEvents(h, outs)) == Some(CoinsOf(AddOutputs(u, h, outs)))
  {
    if outs == [] {
    } else {
      var n := |outs| - 1;
      OutputsPlay(u, h, outs[..n]);
      AddOutputsHas(u, h, outs[..n]);
      var v := AddOutputs(u, h, outs[..n]);
      assert OutPoint(h, n) !in u;
      assert OutPoint(h, n) !in v;
      var e := EndOutput(outs[n].value, h, n, outs[n].script);
      assert OutputEvents(h, outs) == OutputEvents(h, outs[..n]) + [e];
      PlayLast(CoinsOf(u), OutputEvents(h, outs[..n]), e);
      assert CoinsOf(v[OutPoint(h, n) := outs[n]]) == CoinsOf(v)[OutPoint(h, n) := Coin(outs[n].value, outs[n].script)];
    }
  }

  lemma {:induction false} PlayLast(c: Coins, events: seq<Event>, e: Event)
    requires Play(c, events).Some?
    ensures Play(c, events + [e]) == PlayOne(Play(c, events).value, e)
  {
    assert (events + [e])[..|events + [e]| - 1] == events;
  }

  /** The inputs that spend something: all but those of a coinbase. */
  function Spenders(ins: seq<Input>): (r: seq<nat>)
    ensures forall k :: 0 <= k < |r| ==> r[k] < |ins|
  {
    if ins == [] then []
    else
      var n := |ins| - 1;
      Spenders(ins[..n]) + if ins[n].upHash == NULL_HASH then [] else [n]
  }

  /** The edge of input `i`: it names the output spent, with its value and script, the transaction and the input. */
  ghost predicate IsEdgeOf(e: Event, u: Utxo, ins: seq<Input>, i: nat, h: Hash)
    requires i < |ins|
  {
    var op := OutPoint(ins[i].upHash, ins[i].upIndex);
    op in u && e == Edge(u[op].value, ins[i].upHash, ins[i].upIndex, u[op].script, h, i)
  }

  /** The edges of a transaction are those of its spending inputs, in their order. */
  lemma {:induction false} EdgesNameInputs(u: Utxo, ins: seq<Input>, h: Hash)
    requires SpendInputs(u, ins).Next?
    ensures |InputEvents(u, ins, h)| == |Spenders(ins)|
    ensures forall k :: 0 <= k < |Spenders(ins)| ==> IsEdgeOf(InputEvents(u, ins, h)[k], u, ins, Spenders(ins)[k], h)
  {
    if ins == [] {
    } else {
      var n := |ins| - 1;
      EdgesNameInputs(u, ins[..n], h);
      SpendInputsFrom(u, ins[..n]);
    }
  }

  lemma {:induction false} OutputEventsAre(h: Hash, outs: seq<Output>)
    ensures |OutputEvents(h, outs)| == |outs|
    ensures forall j :: 0 <= j < |outs| ==> OutputEvents(h, outs)[j] == EndOutput(outs[j].value, h, j, outs[j].script)
  {
    if outs == [] {
    } else {
      OutputEventsAre(h, outs[..|outs| - 1]);
    }
  }

  /** One by one: the start of the transaction, an edge for each spending input, each output with its number, the
      end. */
  ghost predicate AreEventsOf(e: seq<Event>, u: Utxo, h: Hash, tx: Tx) {
    var spends, outs := Spenders(tx.inputs), tx.outputs;
    && |e| == |spends| + |outs| + 2 && e[0] == StartTX(h) && e[|e| - 1] == EndTX
    && (forall k :: 0 <= k < |spends| ==> IsEdgeOf(e[1 + k], u, tx.inputs, spends[k], h))
    && (forall j :: 0 <= j < |outs| ==> e[1 + |spends| + j] == EndOutput(outs[j].value, h, j, outs[j].script))
  }

  lemma {:induction false} TxEventsAre(u: Utxo, h: Hash, tx: Tx)
    requires SpendInputs(u, tx.inputs).Next?
    ensures AreEventsOf(TxEvents(u, h, tx), u, h, tx)
  {
    hide SpendInputs, InputEvents, OutputEvents, Spenders, IsEdgeOf;
    var a, b := InputEvents(u, tx.inputs, h), OutputEvents(h, tx.outputs);
    EdgesNameInputs(u, tx.inputs, h);
    OutputEventsAre(h, tx.outputs);
    Bracketed(TxEvents(u, h, tx), StartTX(h), a, b, EndTX);
    Placed(TxEvents(u, h, tx), a, b, u, h, tx);
  }

  lemma Placed(e: seq<Event>, a: seq<Event>, b: seq<Event>, u: Utxo, h: Hash, tx: Tx)
    requires |a| == |Spenders(tx.inputs)| && |b| == |tx.outputs|
    requires |e| == |a| + |b| + 2 && e[0] == StartTX(h) && e[|e| - 1] == EndTX
    requires forall k :: 0 <= k < |a| ==> e[1 + k] == a[k]
    requires forall j :: 0 <= j < |b| ==> e[1 + |a| + j] == b[j]
    requires forall k :: 0 <= k < |a| ==> IsEdgeOf(a[k], u, tx.inputs, Spenders(tx.inputs)[k], h)
    requires forall j :: 0 <= j < |b| ==> b[j] == EndOutput(tx.outputs[j].value, h, j, tx.outputs[j].script)
    ensures AreEventsOf(e, u, h, tx)
  {
    hide Spenders, IsEdgeOf;
  }

  lemma Bracketed(e: seq<Event>, first: Event, a: seq<Event>, b: seq<Event>, last: Event)
    requires e == [first] + a + b + [last]
    ensures
      && |e| == |a| + |b| + 2 && e[0] == first && e[|e| - 1] == last
      && (forall k :: 0 <= k < |a| ==> e[1 + k] == a[k])
      && (forall j :: 0 <= j < |b| ==> e[1 + |a| + j] == b[j])
  {
  }

  lemma TxPlays(u: Utxo, h: Hash, tx: Tx)
    requires ApplyTx(u, h, tx).Next?
    ensures Play(CoinsOf(u), TxEvents(u, h, tx)) == Some(CoinsOf(ApplyTx(u, h, tx).utxo))
  {
    hide SpendInputs, AddOutputs, InputEvents, OutputEvents;
    var v := SpendInputs(u, tx.inputs).utxo;
    var a, b := InputEvents(u, tx.inputs, h), OutputEvents(h, tx.outputs);
    InputsPlay(u, tx.inputs, h);
    OutputsPlay(v, h, tx.outputs);
    PlayLast(CoinsOf(u), [], StartTX(h));
    assert [] + [StartTX(h)] == [StartTX(h)];
    PlayConcat(CoinsOf(u), [StartTX(h)], a);
    PlayConcat(CoinsOf(u), [StartTX(h)] + a, b);
    PlayLast(CoinsOf(u), [StartTX(h)] + a + b, EndTX);
  }

  /** Over any clean run, replaying the events alone reproduces the ledger. */
  lemma {:induction false} EventsPlay(u: Utxo, txs: seq<(Hash, Tx)>)
    requires ApplyAll(u, txs).Next?
    ensures Play(CoinsOf(u), AllEvents(u, txs)) == Some(CoinsOf(ApplyAll(u, txs).utxo))
  {
    hide ApplyTx, TxEvents;
    if txs == [] {
    } else {
      var n := |txs| - 1;
      EventsPlay(u, txs[..n]);
      var v := ApplyAll(u, txs[..n]).utxo;
      TxPlays(v, txs[n].0, txs[n].1);
      PlayConcat(CoinsOf(u), AllEvents(u, txs[..n]), TxEvents(v, txs[n].0, txs[n].1));
    }
  }
}
