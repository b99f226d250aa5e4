/** The taint analysis: each transaction mixes what flows in and passes the mixture on to its outputs. */
module Taint {
  import opened Types
  import opened TxFormat
  import opened Ledger

  // ---------------------------------------------------------------------------------
  // Weighted totals over unspent outputs

  type Weight = Hash -> real

  /** The part of a value that a taint makes bad. */
  function Part(value: nat, taint: real): real {
    value as real * taint
  }

  /** Taint of a mixture. */
  function Mix(bad: real, total: nat): real
    requires total > 0
  {
    bad / total as real
  }

  lemma PartBounds(value: nat, taint: real)
    requires 0.0 <= taint <= 1.0
    ensures 0.0 <= Part(value, taint) <= value as real
  {
    var v := value as real;
    NonNegative(v, taint);
    NonNegative(v, 1.0 - taint);
    assert v * (1.0 - taint) == v - v * taint;
  }

  lemma NonNegative(a: real, b: real)
    requires a >= 0.0 && b >= 0.0
    ensures a * b >= 0.0
  {
  }

  lemma PartOfNothing(taint: real)
    ensures Part(0, taint) == 0.0
  {
  }

  lemma PartPositive(value: nat, taint: real)
    requires taint >= 0.0
    ensures Part(value, taint) >= 0.0
    ensures Part(value, taint) == 0.0 <==> value == 0 || taint == 0.0
  {
    NonNegative(value as real, taint);
  }

  lemma PartAdds(m: nat, n: nat, taint: real)
    ensures Part(m + n, taint) == Part(m, taint) + Part(n, taint)
  {
    var a, b := m as real, n as real;
    assert (m + n) as real == a + b;
    assert (a + b) * taint == a * taint + b * taint;
  }

  /** Total value of the coins, each weighted by its transaction. */
  ghost function Weighted(c: Coins, w: Weight): real
    decreases |c|
  {
    if c == map[] then 0.0
    else
      var op :| op in c;
      Part(c[op].value, w(op.hash)) + Weighted(c - {op}, w)
  }

  lemma {:induction false} WeightedLess(c: Coins, w: Weight, op: OutPoint)
    requires op in c
    ensures Weighted(c, w) == Part(c[op].value, w(op.hash)) + Weighted(c - {op}, w)
    decreases |c|
  {
    hide Part;
    var q :| q in c && Weighted(c, w) == Part(c[q].value, w(q.hash)) + Weighted(c - {q}, w);
    if q != op {
      WeightedLess(c - {q}, w, op);
      WeightedLess(c - {op}, w, q);
      assert c - {q} - {op} == c - {op} - {q};
    }
  }

  lemma WeightedMore(c: Coins, w: Weight, op: OutPoint, coin: Coin)
    requires op !in c
    ensures Weighted(c[op := coin], w) == Part(coin.value, w(op.hash)) + Weighted(c, w)
  {
    WeightedLess(c[op := coin], w, op);
    assert c[op := coin] - {op} == c;
  }

  /** Only the weights of transactions that have coins matter. */
  lemma {:induction false} WeightedSame(c: Coins, w: Weight, w': Weight)
    requires forall op :: op in c ==> w(op.hash) == w'(op.hash)
    ensures Weighted(c, w) == Weighted(c, w')
    decreases |c|
  {
    if c == map[] {
    } else {
      var op :| op in c && Weighted(c, w) == Part(c[op].value, w(op.hash)) + Weighted(c - {op}, w);
      WeightedLess(c, w', op);
      WeightedSame(c - {op}, w, w');
    }
  }

  /** Total value: every coin counts in full. */
  ghost function Value(c: Coins): real {
    Weighted(c, _ => 1.0)
  }

  // ---------------------------------------------------------------------------------
  // The analysis as a state machine over events

  datatype State = State(txHash: Hash, txBad: real, txTotal: nat, taintMap: map<Hash, real>) {
    /** The fraction of a transaction's value that is tainted. */
    function TaintOf(h: Hash): real {
      if h in taintMap then taintMap[h] else 0.0
    }

    function Step(sources: set<Hash>, e: Event): State {
      match e
      case StartTX(hash) => State(hash, 0.0, 0, taintMap)
      case Edge(value, upHash, _, _, _, _) =>
        this.(txBad := if upHash in taintMap then txBad + Part(value, taintMap[upHash]) else txBad,
              txTotal := txTotal + value)
      case EndOutput(_, _, _, _) => this
      case EndTX =>
        if txHash !in sources && 0 < txTotal && 0.0 < txBad
        then this.(taintMap := taintMap[txHash := Mix(txBad, txTotal)])
        else this
    }

    function Steps(sources: set<Hash>, events: seq<Event>): State {
      if events == [] then this
      else Steps(sources, events[..|events| - 1]).Step(sources, events[|events| - 1])
    }

    /** Never more bad content than content; every stored taint in (0, 1]; sources are wholly tainted. */
    ghost predicate Ok(sources: set<Hash>) {
      && 0.0 <= txBad <= txTotal as real
      && (forall h :: h in taintMap ==> 0.0 < taintMap[h] <= 1.0)
      && (forall h :: h in sources ==> h in taintMap && taintMap[h] == 1.0)
    }
  }

  /** Before the first block: the sources, wholly tainted. */
  ghost function Initial(sources: set<Hash>): State {
    State([], 0.0, 0, map h | h in sources :: 1.0)
  }

  lemma StepOk(s: State, sources: set<Hash>, e: Event)
    requires s.Ok(sources)
    ensures s.Step(sources, e).Ok(sources)
  {
    match e {
      case Edge(value, upHash, _, _, _, _) =>
        if upHash in s.taintMap {
          PartBounds(value, s.taintMap[upHash]);
        }
      case EndTX =>
        if 0 < s.txTotal && 0.0 < s.txBad {
          var t := Mix(s.txBad, s.txTotal);
          assert t * s.txTotal as real == s.txBad;
          assert 0.0 < t <= 1.0;
        }
      case _ =>
    }
  }

  /** The invariant along every run of events. */
  lemma {:induction false} StepsOk(s: State, sources: set<Hash>, events: seq<Event>)
    requires s.Ok(sources)
    ensures s.Steps(sources, events).Ok(sources)
  {
    if events == [] {
    } else {
      StepsOk(s, sources, events[..|events| - 1]);
      StepOk(s.Steps(sources, events[..|events| - 1]), sources, events[|events| - 1]);
    }
  }

  class TaintAnalysis {
    const sources: set<Hash>
    var txHash: Hash
    var txBad: real
    var txTotal: nat
    var taintMap: map<Hash, real>

    ghost function Abs(): State
      reads this
    {
      State(txHash, txBad, txTotal, taintMap)
    }

    constructor (sources: set<Hash>)
      ensures Abs() == Initial(sources) && Abs().Ok(sources) && this.sources == sources
    {
      this.sources := sources;
      txHash, txBad, txTotal := [], 0.0, 0;
      taintMap := map h | h in sources :: 1.0;
    }

    method Handle(e: Event)
      requires Abs().Ok(sources)
      modifies this
      ensures Abs() == old(Abs()).Step(sources, e) && Abs().Ok(sources)
    {
      StepOk(Abs(), sources, e);
      match e {
        case StartTX(hash) =>
          txHash, txTotal, txBad := hash, 0, 0.0;
        case Edge(value, upHash, _, _, _, _) =>
          if upHash in taintMap {
            txBad := txBad + Part(value, taintMap[upHash]);
          }
          txTotal := txTotal + value;
        case EndOutput(_, _, _, _) =>
        case EndTX =>
          if txHash !in sources && 0 < txTotal && 0.0 < txBad {
            taintMap := taintMap[txHash := Mix(txBad, txTotal)];
          }
      }
    }

    method Run(events: seq<Event>)
      requires Abs().Ok(sources)
      modifies this
      ensures Abs() == old(Abs()).Steps(sources, events) && Abs().Ok(sources)
    {
      for k := 0 to |events|
        invariant Abs() == old(Abs()).Steps(sources, events[..k]) && Abs().Ok(sources)
      {
        assert events[..k + 1][..k] == events[..k];
        Handle(events[k]);
      }
      assert events[..|events|] == events;
    }
  }

  // ---------------------------------------------------------------------------------
  // What one transaction does to the tainted total

  /** Value-weighted taint of all unspent outputs. */
  ghost function Tainted(c: Coins, s: State): real {
    Weighted(c, h => s.TaintOf(h))
  }

  function OutValue(outs: seq<Output>): nat {
    if outs == [] then 0 else OutValue(outs[..|outs| - 1]) + outs[|outs| - 1].value
  }

  /** Inputs move their value and their tainted value out of the coins and into the mixer. */
  lemma {:induction false} InputsMix(u: Utxo, ins: seq<Input>, h: Hash, s: State, sources: set<Hash>)
    requires SpendInputs(u, ins).Next?
    ensures
      var s', v := s.Steps(sources, InputEvents(u, ins, h)), SpendInputs(u, ins).utxo;
      && s'.txHash == s.txHash && s'.taintMap == s.taintMap
      && s'.txBad - s.txBad == Tainted(CoinsOf(u), s) - Tainted(CoinsOf(v), s)
      && (s'.txTotal - s.txTotal) as real == Value(CoinsOf(u)) - Value(CoinsOf(v))
  {
    hide SpendInput, InputEvent, Weighted, Part, State.Step;
    if ins == [] {
    } else {
      var n := |ins| - 1;
      var es, v := InputEvents(u, ins[..n], h), SpendInputs(u, ins[..n]).utxo;
      InputsMix(u, ins[..n], h, s, sources);
      var m := s.Steps(sources, es);
      InputMixes(v, ins[n], h, n, m, sources);
      StepsConcat(s, sources, es, InputEvent(v, ins[n], h, n));
      WeightedSame(CoinsOf(v), g => s.TaintOf(g), g => m.TaintOf(g));
      var v' := SpendInputs(u, ins).utxo;
      WeightedSame(CoinsOf(v'), g => s.TaintOf(g), g => m.TaintOf(g));
    }
  }

  lemma {:induction false} InputMixes(u: Utxo, i: Input, h: Hash, index: nat, s: State, sources: set<Hash>)
    requires SpendInput(u, i).Next?
    ensures
      var s', v := s.Steps(sources, InputEvent(u, i, h, index)), SpendInput(u, i).utxo;
      && s'.txHash == s.txHash && s'.taintMap == s.taintMap
      && s'.txBad - s.txBad == Tainted(CoinsOf(u), s) - Tainted(CoinsOf(v), s)
      && (s'.txTotal - s.txTotal) as real == Value(CoinsOf(u)) - Value(CoinsOf(v))
  {
    var op, e := OutPoint(i.upHash, i.upIndex), InputEvent(u, i, h, index);
    if e != [] {
      assert e[..0] == [];
      assert CoinsOf(u - {op}) == CoinsOf(u) - {op};
      WeightedLess(CoinsOf(u), g => s.TaintOf(g), op);
      WeightedLess(CoinsOf(u), _ => 1.0, op);
    }
  }

  lemma {:induction false} StepsConcat(s: State, sources: set<Hash>, a: seq<Event>, b: seq<Event>)
    ensures s.Steps(sources, a + b) == s.Steps(sources, a).Steps(sources, b)
    decreases |b|
  {
    hide State.Step;
    if b == [] {
      assert a + b == a;
    } else {
      StepsConcat(s, sources, a, b[..|b| - 1]);
      assert (a + b)[..|a + b| - 1] == a + b[..|b| - 1];
    }
  }

  lemma {:induction false} OutputsStep(s: State, sources: set<Hash>, h: Hash, outs: seq<Output>)
    ensures s.Steps(sources, OutputEvents(h, outs)) == s
  {
    if outs == [] {
    } else {
      var n := |outs| - 1;
      OutputsStep(s, sources, h, outs[..n]);
      var e := EndOutput(outs[n].value, h, n, outs[n].script);
      assert (OutputEvents(h, outs[..n]) + [e])[..|OutputEvents(h, outs)| - 1] == OutputEvents(h, outs[..n]);
    }
  }

  /** Outputs all carry the weight of their transaction. */
  lemma {:induction false} OutputsWeigh(u: Utxo, h: Hash, outs: seq<Output>, w: Weight)
    requires !HasUnspent(u, h)
    ensures Weighted(CoinsOf(AddOutputs(u, h, outs)), w) == Weighted(CoinsOf(u), w) + Part(OutValue(outs), w(h))
  {
    hide Part, Weighted;
    PartOfNothing(w(h));
    if outs == [] {
    } else {
      var n := |outs| - 1;
      OutputsWeigh(u, h, outs[..n], w);
      AddOutputsHas(u, h, outs[..n]);
      var v, op, coin := AddOutputs(u, h, outs[..n]), OutPoint(h, n), Coin(outs[n].value, outs[n].script);
      assert op !in u;
      assert CoinsOf(v[op := outs[n]]) == CoinsOf(v)[op := coin];
      WeightedMore(CoinsOf(v), w, op, coin);
      PartAdds(OutValue(outs[..n]), outs[n].value, w(h));
    }
  }

  /** The mixer passes on no more bad content than it took in. */
  lemma MixBound(bad: real, total: nat, out: nat)
    requires 0.0 < bad && 0 < total && out <= total
    ensures Part(out, Mix(bad, total)) <= bad
  {
    var t := Mix(bad, total);
    assert t * total as real == bad;
    NonNegative((total - out) as real, t);
    assert (total - out) as real == total as real - out as real;
    assert (total as real - out as real) * t == total as real * t - out as real * t;
  }

  /** Value a transaction takes in. */
  ghost function InValue(u: Utxo, tx: Tx): real
    requires SpendInputs(u, tx.inputs).Next?
  {
    Value(CoinsOf(u)) - Value(CoinsOf(SpendInputs(u, tx.inputs).utxo))
  }

  /** A transaction's fields after its events, and the tainted total before and after. */
  lemma {:induction false} TxMixes(u: Utxo, h: Hash, tx: Tx, s: State, sources: set<Hash>)
    requires ApplyTx(u, h, tx).Next? && s.Ok(sources)
    ensures
      var v, s' := SpendInputs(u, tx.inputs).utxo, s.Steps(sources, TxEvents(u, h, tx));
      && s'.txTotal as real == InValue(u, tx)
      && s'.txBad == Tainted(CoinsOf(u), s) - Tainted(CoinsOf(v), s)
      && s'.taintMap == (if h !in sources && 0 < s'.txTotal && 0.0 < s'.txBad
                         then s.taintMap[h := Mix(s'.txBad, s'.txTotal)] else s.taintMap)
      && Tainted(CoinsOf(ApplyTx(u, h, tx).utxo), s') ==
         Tainted(CoinsOf(v), s) + Part(OutValue(tx.outputs), s'.TaintOf(h))
  {
    hide SpendInputs, AddOutputs, InputEvents, OutputEvents, Weighted, Part, Mix, State.Steps, State.Step;
    var v := SpendInputs(u, tx.inputs).utxo;
    var ins, outs := InputEvents(u, tx.inputs, h), OutputEvents(h, tx.outputs);
    var s0 := State(h, 0.0, 0, s.taintMap);
    StartStep(s, sources, h);
    StepsConcat(s, sources, [StartTX(h)], ins);
    InputsMix(u, tx.inputs, h, s0, sources);
    WeightedSame(CoinsOf(u), g => s.TaintOf(g), g => s0.TaintOf(g));
    WeightedSame(CoinsOf(v), g => s.TaintOf(g), g => s0.TaintOf(g));
    var s1 := s0.Steps(sources, ins);
    StepsConcat(s, sources, [StartTX(h)] + ins, outs);
    OutputsStep(s1, sources, h, tx.outputs);
    StepsConcat(s, sources, [StartTX(h)] + ins + outs, [EndTX]);
    EndStep(s1, sources);
    var s' := s.Steps(sources, TxEvents(u, h, tx));
    OutputsWeigh(v, h, tx.outputs, g => s'.TaintOf(g));
    assert forall op :: op in v ==> op.hash != h;
    WeightedSame(CoinsOf(v), g => s.TaintOf(g), g => s'.TaintOf(g));
  }

  lemma {:induction false} StartStep(s: State, sources: set<Hash>, h: Hash)
    ensures s.Steps(sources, [StartTX(h)]) == State(h, 0.0, 0, s.taintMap)
  {
    assert [StartTX(h)][..0] == [];
  }

  lemma {:induction false} EndStep(s: State, sources: set<Hash>)
    ensures
      var s' := s.Steps(sources, [EndTX]);
      && s'.txBad == s.txBad && s'.txTotal == s.txTotal
      && s'.taintMap == if s.txHash !in sources && 0 < s.txTotal && 0.0 < s.txBad
                        then s.taintMap[s.txHash := Mix(s.txBad, s.txTotal)] else s.taintMap
  {
    assert [EndTX][..0] == [];
  }

  /** An input that brings in tainted value. */
  ghost predicate BringsTaint(u: Utxo, i: Input, s: State) {
    var op := OutPoint(i.upHash, i.upIndex);
    i.upHash != NULL_HASH && i.upHash in s.taintMap && op in u && u[op].value > 0
  }

  ghost predicate TakesTaint(u: Utxo, ins: seq<Input>, s: State) {
    exists i :: i in ins && BringsTaint(u, i, s)
  }

  lemma InputTaken(u: Utxo, i: Input, s: State, sources: set<Hash>)
    requires SpendInput(u, i).Next? && s.Ok(sources)
    ensures
      var before, after := Tainted(CoinsOf(u), s), Tainted(CoinsOf(SpendInput(u, i).utxo), s);
      after <= before && (after < before <==> BringsTaint(u, i, s))
  {
    hide Part;
    if i.upHash != NULL_HASH {
      var op := OutPoint(i.upHash, i.upIndex);
      assert CoinsOf(u - {op}) == CoinsOf(u) - {op};
      WeightedLess(CoinsOf(u), g => s.TaintOf(g), op);
      PartPositive(u[op].value, s.TaintOf(op.hash));
    }
  }

  /** Inputs lower the tainted total of the coins exactly when one of them brings in tainted value. */
  lemma {:induction false} InputsTaken(u: Utxo, ins: seq<Input>, s: State, sources: set<Hash>)
    requires SpendInputs(u, ins).Next? && s.Ok(sources)
    ensures
      var before, after := Tainted(CoinsOf(u), s), Tainted(CoinsOf(SpendInputs(u, ins).utxo), s);
      after <= before && (after < before <==> TakesTaint(u, ins, s))
  {
    hide SpendInput, Tainted, State.Ok;
    if ins == [] {
    } else {
      var n := |ins| - 1;
      var v, i := SpendInputs(u, ins[..n]).utxo, ins[n];
      InputsTaken(u, ins[..n], s, sources);
      InputTaken(v, i, s, sources);
      SpendInputsFrom(u, ins[..n]);
      SpendInputsFrom(u, ins);
      SpendsUnspent(v, i);
      assert BringsTaint(v, i, s) <==> BringsTaint(u, i, s);
      assert ins == ins[..n] + [i];
    }
  }

  lemma SpendsUnspent(u: Utxo, i: Input)
    requires SpendInput(u, i).Next?
    ensures i.upHash != NULL_HASH ==> OutPoint(i.upHash, i.upIndex) in u
  {
  }

  /** A transaction that creates no value, or a coinbase, which takes none in. */
  ghost predicate Conserves(u: Utxo, tx: Tx) {
    match SpendInputs(u, tx.inputs)
    case Next(_) => OutValue(tx.outputs) as real <= InValue(u, tx) || InValue(u, tx) == 0.0
    case _ => false
  }

  /** In any state, one transaction that is no source does not raise the tainted total exactly when it takes
      in something tainted, or no taint is on record for its hash, or it pays nothing. */
  lemma {:induction false} OneTx(u: Utxo, h: Hash, tx: Tx, s: State, sources: set<Hash>)
    requires ApplyTx(u, h, tx).Next? && s.Ok(sources) && h !in sources && Conserves(u, tx)
    ensures
      var s', u' := s.Steps(sources, TxEvents(u, h, tx)), ApplyTx(u, h, tx).utxo;
      Tainted(CoinsOf(u'), s') <= Tainted(CoinsOf(u), s) <==>
        TakesTaint(u, tx.inputs, s) || h !in s.taintMap || OutValue(tx.outputs) == 0
  {
    hide SpendInputs, AddOutputs, TxEvents, Weighted, Part, Mix, State.Steps, TakesTaint, Value;
    var s' := s.Steps(sources, TxEvents(u, h, tx));
    TxMixes(u, h, tx, s, sources);
    StepsOk(s, sources, TxEvents(u, h, tx));
    InputsTaken(u, tx.inputs, s, sources);
    PartPositive(OutValue(tx.outputs), s'.TaintOf(h));
    if s'.txBad > 0.0 {
      MixBound(s'.txBad, s'.txTotal, OutValue(tx.outputs));
    }
  }

  lemma InputsSpent(u: Utxo, h: Hash, tx: Tx)
    requires ApplyTx(u, h, tx).Next?
    ensures SpendInputs(u, tx.inputs).Next?
  {
  }

  /** The arithmetic of a mixture: of `taken` in, `out` comes out, and `bad` of it was bad. */
  lemma MixLaw(before: real, spent: real, after: real, taken: real, total: nat, out: nat, taint: real)
    requires total > 0 && taken == total as real && taint == Mix(before - spent, total)
    requires after == spent + Part(out, taint)
    ensures (after - spent) * taken == (before - spent) * out as real
    ensures taken == out as real ==> after == before
    ensures taint * taken == before - spent
  {
    var bad, o := before - spent, out as real;
    assert taint * taken == bad;
    assert (o * taint) * taken == o * (taint * taken);
    assert after - spent == o * taint;
    if taken == o {
      assert o * taint == taint * taken;
    }
  }

  /** The law of the mixture, free of how a taint is stored: what a tainted transaction pays out is to what it
      takes in as the tainted value that comes out is to the tainted value that goes in. When all value comes
      out again, so does all tainted value. */
  lemma {:induction false} MixesExactly(u: Utxo, h: Hash, tx: Tx, s: State, sources: set<Hash>)
    requires ApplyTx(u, h, tx).Next? && s.Ok(sources) && h !in sources && TakesTaint(u, tx.inputs, s)
    ensures
      var v, u' := SpendInputs(u, tx.inputs).utxo, ApplyTx(u, h, tx).utxo;
      var s' := s.Steps(sources, TxEvents(u, h, tx));
      var before, spent, after := Tainted(CoinsOf(u), s), Tainted(CoinsOf(v), s), Tainted(CoinsOf(u'), s');
      && (after - spent) * InValue(u, tx) == (before - spent) * OutValue(tx.outputs) as real
      && (InValue(u, tx) == OutValue(tx.outputs) as real ==> after == before)
      && h in s'.taintMap && s'.taintMap[h] * InValue(u, tx) == before - spent
  {
    hide SpendInputs, TxEvents, Tainted, InValue, Part, Mix, State.Steps, State.Ok, TakesTaint, ApplyTx, OutValue;
    InputsSpent(u, h, tx);
    var s', v, u' := s.Steps(sources, TxEvents(u, h, tx)), SpendInputs(u, tx.inputs).utxo, ApplyTx(u, h, tx).utxo;
    TakenMixed(u, h, tx, s, sources);
    MixLaw(Tainted(CoinsOf(u), s), Tainted(CoinsOf(v), s), Tainted(CoinsOf(u'), s'), InValue(u, tx), s'.txTotal,
           OutValue(tx.outputs), s'.taintMap[h]);
  }

  /** What is stored for a transaction that takes in taint, and what it makes of the tainted total. */
  lemma {:induction false} TakenMixed(u: Utxo, h: Hash, tx: Tx, s: State, sources: set<Hash>)
    requires ApplyTx(u, h, tx).Next? && s.Ok(sources) && h !in sources && TakesTaint(u, tx.inputs, s)
    ensures SpendInputs(u, tx.inputs).Next?
    ensures
      var v, u' := SpendInputs(u, tx.inputs).utxo, ApplyTx(u, h, tx).utxo;
      var s' := s.Steps(sources, TxEvents(u, h, tx));
      && s'.txTotal > 0 && InValue(u, tx) == s'.txTotal as real && h in s'.taintMap
      && s'.taintMap[h] == Mix(Tainted(CoinsOf(u), s) - Tainted(CoinsOf(v), s), s'.txTotal)
      && Tainted(CoinsOf(u'), s') == Tainted(CoinsOf(v), s) + Part(OutValue(tx.outputs), s'.taintMap[h])
  {
    hide SpendInputs, TxEvents, Tainted, InValue, Part, Mix, State.Steps, TakesTaint, ApplyTx, OutValue;
    InputsSpent(u, h, tx);
    TxMixes(u, h, tx, s, sources);
    StepsOk(s, sources, TxEvents(u, h, tx));
    InputsTaken(u, tx.inputs, s, sources);
  }

  /** The taints on record after a transaction: a source, or one that takes in no taint, changes none; any other
      changes its own, to what it takes in that is tainted over what it takes in. */
  ghost predicate Mixed(u: Utxo, h: Hash, tx: Tx, s: State, s': State, sources: set<Hash>)
    requires SpendInputs(u, tx.inputs).Next?
  {
    if h in sources || !TakesTaint(u, tx.inputs, s) then s'.taintMap == s.taintMap
    else
      var v := SpendInputs(u, tx.inputs).utxo;
      && h in s'.taintMap && s'.taintMap == s.taintMap[h := s'.taintMap[h]]
      && s'.taintMap[h] * InValue(u, tx) == Tainted(CoinsOf(u), s) - Tainted(CoinsOf(v), s)
  }

  lemma {:induction false} OneMixed(u: Utxo, h: Hash, tx: Tx, s: State, sources: set<Hash>)
    requires ApplyTx(u, h, tx).Next? && s.Ok(sources)
    ensures SpendInputs(u, tx.inputs).Next?
    ensures Mixed(u, h, tx, s, s.Steps(sources, TxEvents(u, h, tx)), sources)
  {
    hide SpendInputs, TxEvents, Tainted, InValue, State.Steps, TakesTaint, ApplyTx, Mix;
    InputsSpent(u, h, tx);
    TxMixes(u, h, tx, s, sources);
    InputsTaken(u, tx.inputs, s, sources);
    if h !in sources && TakesTaint(u, tx.inputs, s) {
      MixesExactly(u, h, tx, s, sources);
    }
  }

  /** All that a source pays out is tainted, so that it adds at most that. */
  lemma {:induction false} OneSource(u: Utxo, h: Hash, tx: Tx, s: State, sources: set<Hash>)
    requires ApplyTx(u, h, tx).Next? && s.Ok(sources) && h in sources
    ensures
      var v, u' := SpendInputs(u, tx.inputs).utxo, ApplyTx(u, h, tx).utxo;
      var s', paid := s.Steps(sources, TxEvents(u, h, tx)), OutValue(tx.outputs) as real;
      && Tainted(CoinsOf(u'), s') == Tainted(CoinsOf(v), s) + paid
      && Tainted(CoinsOf(u'), s') <= Tainted(CoinsOf(u), s) + paid
  {
    hide SpendInputs, AddOutputs, TxEvents, Weighted, State.Steps, TakesTaint;
    InputsSpent(u, h, tx);
    TxMixes(u, h, tx, s, sources);
    InputsTaken(u, tx.inputs, s, sources);
  }

  // ---------------------------------------------------------------------------------
  // Whole runs

  /** No two transactions share a hash. */
  ghost predicate HashesDetermine(txs: seq<(Hash, Tx)>) {
    forall p, q :: p in txs && q in txs && p.0 == q.0 ==> p == q
  }

  /** The fields of the analysis after a run from the start. */
  ghost function StateAfter(sources: set<Hash>, txs: seq<(Hash, Tx)>): State {
    Initial(sources).Steps(sources, AllEvents(map[], txs))
  }

  /** Tainted value unspent after a run from the start. */
  ghost function TaintedAfter(sources: set<Hash>, txs: seq<(Hash, Tx)>): real {
    match ApplyAll(map[], txs)
    case Next(u) => Tainted(CoinsOf(u), StateAfter(sources, txs))
    case _ => 0.0
  }

  /** The output is one that a transaction of the run has made. */
  ghost predicate Made(txs: seq<(Hash, Tx)>, op: OutPoint, o: Output) {
    exists p :: p in txs && p.0 == op.hash && op.index < |p.1.outputs| && p.1.outputs[op.index] == o
  }

  /** The input names a transaction with a taint on record, and an output of it that is worth something. */
  ghost predicate NamesTainted(txs: seq<(Hash, Tx)>, i: Input, s: State) {
    && i.upHash != NULL_HASH && i.upHash in s.taintMap
    && exists o :: Made(txs, OutPoint(i.upHash, i.upIndex), o) && o.value > 0
  }

  /** A transaction of the run that has this hash took in taint. */
  ghost predicate TookTaint(txs: seq<(Hash, Tx)>, h: Hash, s: State) {
    exists p, i :: p in txs && p.0 == h && i in p.1.inputs && NamesTainted(txs, i, s)
  }

  /** What is unspent was made in the run, and what has a taint on record is a source or took it in. */
  ghost predicate Traced(sources: set<Hash>, txs: seq<(Hash, Tx)>, u: Utxo, s: State) {
    && (forall op :: op in u ==> Made(txs, op, u[op]))
    && (forall h :: h in s.taintMap ==> h in sources || TookTaint(txs, h, s))
  }

  lemma TookTaintStays(txs: seq<(Hash, Tx)>, last: (Hash, Tx), h: Hash, s: State, s': State)
    requires TookTaint(txs, h, s) && s.taintMap.Keys <= s'.taintMap.Keys
    ensures TookTaint(txs + [last], h, s')
  {
    var p, i :| p in txs && p.0 == h && i in p.1.inputs && NamesTainted(txs, i, s);
    NamesTaintedStays(txs, last, i, s, s');
    assert p in txs + [last];
  }

  lemma NamesTaintedStays(txs: seq<(Hash, Tx)>, last: (Hash, Tx), i: Input, s: State, s': State)
    requires NamesTainted(txs, i, s) && s.taintMap.Keys <= s'.taintMap.Keys
    ensures NamesTainted(txs + [last], i, s')
  {
    var op := OutPoint(i.upHash, i.upIndex);
    var o :| Made(txs, op, o) && o.value > 0;
    MadeStays(txs, last, op, o);
  }

  lemma MadeStays(txs: seq<(Hash, Tx)>, last: (Hash, Tx), op: OutPoint, o: Output)
    requires Made(txs, op, o)
    ensures Made(txs + [last], op, o)
  {
    var p :| p in txs && p.0 == op.hash && op.index < |p.1.outputs| && p.1.outputs[op.index] == o;
    assert p in txs + [last];
  }

  /** One more transaction keeps the trace. */
  lemma {:induction false} TracedOn(sources: set<Hash>, txs: seq<(Hash, Tx)>, h: Hash, tx: Tx, u: Utxo, s: State)
    requires ApplyTx(u, h, tx).Next? && s.Ok(sources) && Traced(sources, txs, u, s)
    ensures Traced(sources, txs + [(h, tx)], ApplyTx(u, h, tx).utxo, s.Steps(sources, TxEvents(u, h, tx)))
  {
    hide TxEvents, State.Steps, State.Ok, TookTaint, TakesTaint, Tainted, Mix;
    var s' := s.Steps(sources, TxEvents(u, h, tx));
    TxMixes(u, h, tx, s, sources);
    InputsTaken(u, tx.inputs, s, sources);
    OutputsMade(txs, h, tx, u);
    forall g | g in s'.taintMap ensures g in sources || TookTaint(txs + [(h, tx)], g, s') {
      if g in s.taintMap && g !in sources {
        TookTaintStays(txs, (h, tx), g, s, s');
      } else if g !in s.taintMap {
        TaintRecorded(sources, txs, h, tx, u, s, s');
      }
    }
  }

  lemma OutputsMade(txs: seq<(Hash, Tx)>, h: Hash, tx: Tx, u: Utxo)
    requires ApplyTx(u, h, tx).Next? && forall op :: op in u ==> Made(txs, op, u[op])
    ensures forall op :: op in ApplyTx(u, h, tx).utxo ==> Made(txs + [(h, tx)], op, ApplyTx(u, h, tx).utxo[op])
  {
    hide SpendInputs, AddOutputs, Made;
    var v, u' := SpendInputs(u, tx.inputs).utxo, ApplyTx(u, h, tx).utxo;
    SpendInputsFrom(u, tx.inputs);
    AddOutputsHas(v, h, tx.outputs);
    forall op | op in u' ensures Made(txs + [(h, tx)], op, u'[op]) {
      if op in v {
        MadeStays(txs, (h, tx), op, u[op]);
      } else {
        MadeLast(txs, h, tx, op);
      }
    }
  }

  lemma MadeLast(txs: seq<(Hash, Tx)>, h: Hash, tx: Tx, op: OutPoint)
    requires op.hash == h && op.index < |tx.outputs|
    ensures Made(txs + [(h, tx)], op, tx.outputs[op.index])
  {
    assert (h, tx) in txs + [(h, tx)];
  }

  lemma TaintRecorded(sources: set<Hash>, txs: seq<(Hash, Tx)>, h: Hash, tx: Tx, u: Utxo, s: State, s': State)
    requires Traced(sources, txs, u, s) && TakesTaint(u, tx.inputs, s) && s.taintMap.Keys <= s'.taintMap.Keys
    ensures TookTaint(txs + [(h, tx)], h, s')
  {
    hide Made;
    var i :| i in tx.inputs && BringsTaint(u, i, s);
    assert NamesTainted(txs, i, s);
    NamesTaintedStays(txs, (h, tx), i, s, s');
    assert (h, tx) in txs + [(h, tx)];
  }

  /** Every reachable state is traced. */
  lemma {:induction false} RunTraced(sources: set<Hash>, txs: seq<(Hash, Tx)>)
    requires ApplyAll(map[], txs).Next?
    ensures StateAfter(sources, txs).Ok(sources)
    ensures Traced(sources, txs, ApplyAll(map[], txs).utxo, StateAfter(sources, txs))
  {
    hide ApplyTx, TxEvents, State.Step, State.Ok, Traced;
    if txs == [] {
      NothingTraced(sources);
    } else {
      var n := |txs| - 1;
      var (h, tx) := txs[n];
      var u, s := ApplyAll(map[], txs[..n]).utxo, StateAfter(sources, txs[..n]);
      RunTraced(sources, txs[..n]);
      AfterOneMore(sources, txs);
      StepsOk(s, sources, TxEvents(u, h, tx));
      TracedOn(sources, txs[..n], h, tx, u, s);
      assert txs == txs[..n] + [(h, tx)];
    }
  }

  lemma NothingTraced(sources: set<Hash>)
    ensures Initial(sources).Ok(sources) && Traced(sources, [], map[], Initial(sources))
  {
  }

  lemma {:induction false} AfterOneMore(sources: set<Hash>, txs: seq<(Hash, Tx)>)
    requires txs != [] && ApplyAll(map[], txs).Next?
    ensures
      var n := |txs| - 1;
      && ApplyAll(map[], txs[..n]).Next?
      && ApplyAll(map[], txs) == ApplyTx(ApplyAll(map[], txs[..n]).utxo, txs[n].0, txs[n].1)
      && StateAfter(sources, txs) == StateAfter(sources, txs[..n]).Steps(sources,
           TxEvents(ApplyAll(map[], txs[..n]).utxo, txs[n].0, txs[n].1))
  {
    hide ApplyTx, TxEvents, State.Steps;
    var n := |txs| - 1;
    var u := ApplyAll(map[], txs[..n]).utxo;
    StepsConcat(Initial(sources), sources, AllEvents(map[], txs[..n]), TxEvents(u, txs[n].0, txs[n].1));
  }

  /** A transaction met again takes in taint again, if there is one on record for it. */
  lemma {:induction false} AgainTaken(sources: set<Hash>, txs: seq<(Hash, Tx)>, h: Hash, tx: Tx, u: Utxo, s: State)
    requires Traced(sources, txs, u, s) && HashesDetermine(txs + [(h, tx)])
    requires SpendInputs(u, tx.inputs).Next? && h in s.taintMap && h !in sources
    ensures TakesTaint(u, tx.inputs, s)
  {
    hide SpendInputs, Made;
    var p, i :| p in txs && p.0 == h && i in p.1.inputs && NamesTainted(txs, i, s);
    assert p in txs + [(h, tx)] && (h, tx) in txs + [(h, tx)];
    SpendInputsFrom(u, tx.inputs);
    var op := OutPoint(i.upHash, i.upIndex);
    var o :| Made(txs, op, o) && o.value > 0;
    MadeOnce(txs, h, tx, op, o, u[op]);
    assert BringsTaint(u, i, s);
  }

  lemma MadeOnce(txs: seq<(Hash, Tx)>, h: Hash, tx: Tx, op: OutPoint, o: Output, o': Output)
    requires HashesDetermine(txs + [(h, tx)]) && Made(txs, op, o) && Made(txs, op, o')
    ensures o == o'
  {
    var p :| p in txs && p.0 == op.hash && op.index < |p.1.outputs| && p.1.outputs[op.index] == o;
    var q :| q in txs && q.0 == op.hash && op.index < |q.1.outputs| && q.1.outputs[op.index] == o';
    assert p in txs + [(h, tx)] && q in txs + [(h, tx)];
  }

  /** The transaction at `k` of a run creates no value. */
  ghost predicate ConservesAt(txs: seq<(Hash, Tx)>, k: nat)
    requires k < |txs|
  {
    match ApplyAll(map[], txs[..k])
    case Next(u) => Conserves(u, txs[k].1)
    case _ => false
  }

  /** What the transaction at `k` of a run does to the taints on record. */
  ghost predicate MixedAt(sources: set<Hash>, txs: seq<(Hash, Tx)>, k: nat)
    requires k < |txs|
  {
    match ApplyAll(map[], txs[..k])
    case Next(u) =>
      && SpendInputs(u, txs[k].1.inputs).Next?
      && Mixed(u, txs[k].0, txs[k].1, StateAfter(sources, txs[..k]), StateAfter(sources, txs[..k + 1]), sources)
    case _ => false
  }

  lemma {:induction false} RunMixed(sources: set<Hash>, txs: seq<(Hash, Tx)>, k: nat)
    requires k < |txs| && ApplyAll(map[], txs).Next?
    ensures MixedAt(sources, txs, k)
  {
    hide ApplyAll, ApplyTx, StateAfter, TxEvents, State.Steps, State.Ok, Mixed, SpendInputs, Traced;
    ApplyAllPrefix(map[], txs, k + 1);
    assert txs[..k + 1][..k] == txs[..k];
    AfterOneMore(sources, txs[..k + 1]);
    RunTraced(sources, txs[..k]);
    OneMixed(ApplyAll(map[], txs[..k]).utxo, txs[k].0, txs[k].1, StateAfter(sources, txs[..k]), sources);
  }

  /** What a transaction may add to the tainted value: its outputs, if it is a source. */
  function Source(sources: set<Hash>, h: Hash, tx: Tx): nat {
    if h in sources then OutValue(tx.outputs) else 0
  }

  function SourceValue(sources: set<Hash>, txs: seq<(Hash, Tx)>): nat {
    if txs == [] then 0
    else
      var n := |txs| - 1;
      SourceValue(sources, txs[..n]) + Source(sources, txs[n].0, txs[n].1)
  }

  /** A source that starts a run taints all it pays out, and that is what `SourceValue` says. */
  lemma {:induction false} FirstSource(sources: set<Hash>, h: Hash, tx: Tx)
    requires ApplyAll(map[], [(h, tx)]).Next? && h in sources
    ensures TaintedAfter(sources, [(h, tx)]) == SourceValue(sources, [(h, tx)]) as real == OutValue(tx.outputs) as real
  {
    hide ApplyAll, ApplyTx, TxEvents, State.Steps, SpendInputs, OutValue, TakesTaint, StateAfter;
    var txs := [(h, tx)];
    assert txs[..0] == [];
    NothingDone(sources);
    AfterOneMore(sources, txs);
    RunTraced(sources, []);
    OneSource(map[], h, tx, StateAfter(sources, []), sources);
    InputsSpent(map[], h, tx);
    SpendInputsFrom(map[], tx.inputs);
    assert CoinsOf(SpendInputs(map[], tx.inputs).utxo) == map[];
  }

  lemma NothingDone(sources: set<Hash>)
    ensures ApplyAll(map[], []) == Next(map[]) && SourceValue(sources, []) == 0
  {
  }

  /** What the last transaction of a run does, if it is no source, and if it is one. */
  lemma {:induction false} LastTx(sources: set<Hash>, txs: seq<(Hash, Tx)>)
    requires txs != [] && ApplyAll(map[], txs).Next? && HashesDetermine(txs)
    requires txs[|txs| - 1].0 !in sources ==> ConservesAt(txs, |txs| - 1)
    ensures
      var n := |txs| - 1;
      var (h, tx) := txs[n];
      TaintedAfter(sources, txs) <= TaintedAfter(sources, txs[..n]) + Source(sources, h, tx) as real
  {
    hide ApplyAll, ApplyTx, StateAfter, TxEvents, State.Steps, State.Ok, Traced, TakesTaint, Conserves, Tainted,
      HashesDetermine, OutValue;
    var n := |txs| - 1;
    var (h, tx) := txs[n];
    AfterOneMore(sources, txs);
    RunTraced(sources, txs[..n]);
    var u, s := ApplyAll(map[], txs[..n]).utxo, StateAfter(sources, txs[..n]);
    if h in sources {
      OneSource(u, h, tx, s, sources);
    } else {
      OneTx(u, h, tx, s, sources);
      if h in s.taintMap {
        assert txs == txs[..n] + [(h, tx)];
        InputsSpent(u, h, tx);
        AgainTaken(sources, txs[..n], h, tx, u, s);
      }
    }
  }

  /** In every reachable state, sources in the run so far included: a transaction that is no source and creates
      no value does not raise the tainted value of what is unspent, as hashes determine transactions. */
  lemma {:induction false} TaintNeverGrows(sources: set<Hash>, txs: seq<(Hash, Tx)>, k: nat)
    requires ApplyAll(map[], txs).Next? && HashesDetermine(txs)
    requires k < |txs| && txs[k].0 !in sources && ConservesAt(txs, k)
    ensures TaintedAfter(sources, txs[..k + 1]) <= TaintedAfter(sources, txs[..k])
  {
    hide ApplyAll, TaintedAfter, HashesDetermine, Conserves;
    Prefix(txs, k, k + 1);
    LastTx(sources, txs[..k + 1]);
  }

  lemma PrefixDetermines(txs: seq<(Hash, Tx)>, m: nat)
    requires m <= |txs| && HashesDetermine(txs)
    ensures HashesDetermine(txs[..m])
  {
    assert forall p :: p in txs[..m] ==> p in txs;
  }

  /** Prefixes of a run are runs. */
  lemma {:induction false} Prefix(txs: seq<(Hash, Tx)>, k: nat, m: nat)
    requires k < m <= |txs| && ApplyAll(map[], txs).Next? && HashesDetermine(txs)
    ensures ApplyAll(map[], txs[..m]).Next? && HashesDetermine(txs[..m])
    ensures txs[..m][k] == txs[k] && txs[..m][..k] == txs[..k]
    ensures ConservesAt(txs[..m], k) == ConservesAt(txs, k)
  {
    hide ApplyAll, Conserves, HashesDetermine;
    ApplyAllPrefix(map[], txs, m);
    PrefixDetermines(txs, m);
    assert txs[..m][..k] == txs[..k];
  }

  /** Over any stretch of a run, tainted value grows by no more than what the sources in it pay out: without
      sources it only shrinks. */
  lemma {:induction false} TaintOverRun(sources: set<Hash>, txs: seq<(Hash, Tx)>, j: nat)
    requires ApplyAll(map[], txs).Next? && HashesDetermine(txs) && j <= |txs|
    requires forall k :: j <= k < |txs| && txs[k].0 !in sources ==> ConservesAt(txs, k)
    ensures
      TaintedAfter(sources, txs) <= TaintedAfter(sources, txs[..j]) + SourceValue(sources, txs[j..]) as real
    ensures (forall k :: j <= k < |txs| ==> txs[k].0 !in sources) ==> SourceValue(sources, txs[j..]) == 0
    decreases |txs|
  {
    hide ApplyAll, TaintedAfter, HashesDetermine, ConservesAt, Source;
    if j == |txs| {
      assert txs[..j] == txs && txs[j..] == [];
    } else {
      var n := |txs| - 1;
      AllButLast(txs, j);
      TaintOverRun(sources, txs[..n], j);
      LastTx(sources, txs);
      assert txs[j..][..n - j] == txs[..n][j..];
      NoSource(sources, txs[n].0, txs[n].1);
    }
  }

  lemma NoSource(sources: set<Hash>, h: Hash, tx: Tx)
    ensures h !in sources ==> Source(sources, h, tx) == 0
  {
  }

  lemma AllButLast(txs: seq<(Hash, Tx)>, j: nat)
    requires ApplyAll(map[], txs).Next? && HashesDetermine(txs) && j < |txs|
    ensures
      var front := txs[..|txs| - 1];
      && ApplyAll(map[], front).Next? && HashesDetermine(front) && front[..j] == txs[..j]
      && forall k :: 0 <= k < |front| ==> front[k] == txs[k] && ConservesAt(front, k) == ConservesAt(txs, k)
  {
    hide ApplyAll, HashesDetermine, ConservesAt;
    var n := |txs| - 1;
    ApplyAllPrefix(map[], txs, n);
    PrefixDetermines(txs, n);
    forall k | 0 <= k < n ensures ConservesAt(txs[..n], k) == ConservesAt(txs, k) {
      Prefix(txs, k, n);
    }
    assert txs[..n][..j] == txs[..j];
  }

  /** From the start: no more is tainted than the sources have paid out. */
  lemma {:induction false} TaintFromSources(sources: set<Hash>, txs: seq<(Hash, Tx)>)
    requires ApplyAll(map[], txs).Next? && HashesDetermine(txs)
    requires forall k :: 0 <= k < |txs| && txs[k].0 !in sources ==> ConservesAt(txs, k)
    ensures TaintedAfter(sources, txs) <= SourceValue(sources, txs) as real
  {
    hide HashesDetermine, ConservesAt;
    TaintOverRun(sources, txs, 0);
    assert txs[0..] == txs;
    assert CoinsOf(map[]) == map[];
  }
}
