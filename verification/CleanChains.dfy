/** Which chains the ledger takes, and what it then holds, said of the list of transactions alone. */
module CleanChains {
  import opened Types
  import opened TxFormat
  import opened Ledger

  ghost predicate MakesAt(txs: seq<(Hash, Tx)>, k: nat, op: OutPoint) {
    k < |txs| && txs[k].0 == op.hash && op.index < |txs[k].1.outputs|
  }

  /** Some input names the output; the input of a coinbase names none. */
  ghost predicate Names(ins: seq<Input>, op: OutPoint) {
    exists i: Input :: i in ins && i.upHash != NULL_HASH && i.upHash == op.hash && i.upIndex == op.index
  }

  /** Transaction `k` makes the output and no later one names it. */
  ghost predicate LeftBy(txs: seq<(Hash, Tx)>, k: nat, op: OutPoint) {
    MakesAt(txs, k, op) && forall j :: k < j < |txs| ==> !Names(txs[j].1.inputs, op)
  }

  ghost predicate Unspent(txs: seq<(Hash, Tx)>, op: OutPoint) {
    exists k: nat :: LeftBy(txs, k, op)
  }

  /** Unspent still when the inputs `ins` have spent theirs. */
  ghost predicate Held(txs: seq<(Hash, Tx)>, ins: seq<Input>, op: OutPoint) {
    Unspent(txs, op) && !Names(ins, op)
  }

  /** Every input, in its turn, names an output that is held. */
  ghost predicate Payable(txs: seq<(Hash, Tx)>, ins: seq<Input>) {
    forall i :: 0 <= i < |ins| ==> PayableAt(txs, ins, i)
  }

  ghost predicate PayableAt(txs: seq<(Hash, Tx)>, ins: seq<Input>, i: nat)
    requires i < |ins|
  {
    ins[i].upHash != NULL_HASH ==> Held(txs, ins[..i], OutPoint(ins[i].upHash, ins[i].upIndex))
  }

  /** The transaction may come next: its inputs name outputs held, it makes some output, and no output of its hash
      is left once they are spent. */
  ghost predicate MayFollow(txs: seq<(Hash, Tx)>, h: Hash, tx: Tx) {
    Payable(txs, tx.inputs) && tx.outputs != [] && forall n: nat :: !Held(txs, tx.inputs, OutPoint(h, n))
  }

  ghost predicate CleanRun(txs: seq<(Hash, Tx)>) {
    forall k :: 0 <= k < |txs| ==> MayFollow(txs[..k], txs[k].0, txs[k].1)
  }

  /** Input `i` is the first that cannot be paid, and nothing of the transaction it names is left. */
  ghost predicate Stranded(txs: seq<(Hash, Tx)>, ins: seq<Input>, i: nat) {
    && i < |ins| && Payable(txs, ins[..i]) && ins[i].upHash != NULL_HASH
    && forall n: nat :: !Held(txs, ins[..i], OutPoint(ins[i].upHash, n))
  }

  ghost predicate StrandedAt(txs: seq<(Hash, Tx)>, k: nat, i: nat) {
    k < |txs| && CleanRun(txs[..k]) && Stranded(txs[..k], txs[k].1.inputs, i)
  }

  /** The ledger holds what the list leaves unspent. */
  ghost predicate Holds(u: Utxo, txs: seq<(Hash, Tx)>) {
    && (forall op :: op in u <==> Unspent(txs, op))
    && (forall op, k: nat :: LeftBy(txs, k, op) ==> op in u && u[op] == txs[k].1.outputs[op.index])
  }

  lemma NamesOneMore(ins: seq<Input>, op: OutPoint)
    requires ins != []
    ensures
      var i := ins[|ins| - 1];
      Names(ins, op) <==> Names(ins[..|ins| - 1], op) || (i.upHash != NULL_HASH && op == OutPoint(i.upHash, i.upIndex))
  {
    assert ins == ins[..|ins| - 1] + [ins[|ins| - 1]];
  }

  lemma PayableOneMore(txs: seq<(Hash, Tx)>, ins: seq<Input>)
    requires ins != []
    ensures Payable(txs, ins) <==> Payable(txs, ins[..|ins| - 1]) && PayableAt(txs, ins, |ins| - 1)
  {
    hide Held;
    var front := ins[..|ins| - 1];
    assert forall i :: 0 <= i < |front| ==> front[..i] == ins[..i];
    assert forall i :: 0 <= i < |front| ==> (PayableAt(txs, front, i) <==> PayableAt(txs, ins, i));
  }

  /** The ledger spends a list of inputs exactly when they can all be paid. */
  lemma {:induction false} SpendsPayable(txs: seq<(Hash, Tx)>, u: Utxo, ins: seq<Input>)
    requires forall op :: op in u <==> Unspent(txs, op)
    ensures SpendInputs(u, ins).Next? <==> Payable(txs, ins)
    ensures SpendInputs(u, ins).Next? ==> forall op :: op in SpendInputs(u, ins).utxo <==> Held(txs, ins, op)
  {
    hide Unspent, Names, Payable, PayableAt;
    if ins == [] {
      NothingNamed(txs);
    } else {
      var n := |ins| - 1;
      SpendsPayable(txs, u, ins[..n]);
      PayableOneMore(txs, ins);
      if SpendInputs(u, ins[..n]).Next? {
        LastSpent(txs, SpendInputs(u, ins[..n]).utxo, ins);
      }
    }
  }

  lemma NothingNamed(txs: seq<(Hash, Tx)>)
    ensures Payable(txs, []) && forall op :: !Names([], op)
  {
  }

  lemma LastSpent(txs: seq<(Hash, Tx)>, v: Utxo, ins: seq<Input>)
    requires ins != [] && forall op :: op in v <==> Held(txs, ins[..|ins| - 1], op)
    ensures SpendInput(v, ins[|ins| - 1]).Next? <==> PayableAt(txs, ins, |ins| - 1)
    ensures SpendInput(v, ins[|ins| - 1]).Next? ==>
              forall op :: op in SpendInput(v, ins[|ins| - 1]).utxo <==> Held(txs, ins, op)
  {
    hide Unspent, Names;
    forall op ensures Held(txs, ins, op) <==>
      op in v && !(ins[|ins| - 1].upHash != NULL_HASH && op == OutPoint(ins[|ins| - 1].upHash, ins[|ins| - 1].upIndex))
    {
      NamesOneMore(ins, op);
    }
  }

  /** It ends in the fatal error exactly when some input is the first to name a transaction of which nothing is left. */
  lemma {:induction false} MissesStranded(txs: seq<(Hash, Tx)>, u: Utxo, ins: seq<Input>)
    requires forall op :: op in u <==> Unspent(txs, op)
    ensures SpendInputs(u, ins) == Missing <==> exists i: nat :: Stranded(txs, ins, i)
  {
    hide Unspent, Names, Payable, Held;
    if ins == [] {
    } else {
      var n := |ins| - 1;
      MissesStranded(txs, u, ins[..n]);
      SpendsPayable(txs, u, ins[..n]);
      forall i: nat | i < n ensures Stranded(txs, ins[..n], i) <==> Stranded(txs, ins, i) {
        assert ins[..n][..i] == ins[..i];
      }
      if Payable(txs, ins[..n]) {
        LastStranded(txs, SpendInputs(u, ins[..n]).utxo, ins);
      }
    }
  }

  lemma LastStranded(txs: seq<(Hash, Tx)>, v: Utxo, ins: seq<Input>)
    requires ins != [] && Payable(txs, ins[..|ins| - 1])
    requires forall op :: op in v <==> Held(txs, ins[..|ins| - 1], op)
    ensures SpendInput(v, ins[|ins| - 1]) == Missing <==> Stranded(txs, ins, |ins| - 1)
  {
    hide Held, Payable;
    var h := ins[|ins| - 1].upHash;
    if m: nat :| Held(txs, ins[..|ins| - 1], OutPoint(h, m)) {
      assert OutPoint(h, m) in v;
    }
  }

  lemma LeftOneMore(txs: seq<(Hash, Tx)>, op: OutPoint, k: nat)
    requires txs != []
    ensures
      var n := |txs| - 1;
      LeftBy(txs, k, op) <==>
        if k == n then MakesAt(txs, n, op) else LeftBy(txs[..n], k, op) && !Names(txs[n].1.inputs, op)
  {
    hide Names;
    var n := |txs| - 1;
    if k < n {
      assert txs[..n][k] == txs[k];
    }
  }

  /** One more transaction that may follow leaves the ledger holding what the longer list does. */
  lemma HoldsOneMore(txs: seq<(Hash, Tx)>, u: Utxo)
    requires txs != [] && Holds(u, txs[..|txs| - 1])
    ensures
      var n := |txs| - 1;
      var r := ApplyTx(u, txs[n].0, txs[n].1);
      && (r.Next? <==> MayFollow(txs[..n], txs[n].0, txs[n].1))
      && (r.Next? ==> Holds(r.utxo, txs))
  {
    hide Names, Unspent, LeftBy, Payable, AddOutputs, SpendInputs;
    var n := |txs| - 1;
    var front, h, tx := txs[..n], txs[n].0, txs[n].1;
    SpendsPayable(front, u, tx.inputs);
    if SpendInputs(u, tx.inputs).Next? {
      var v := SpendInputs(u, tx.inputs).utxo;
      assert HasUnspent(v, h) <==> exists m: nat :: Held(front, tx.inputs, OutPoint(h, m)) by {
        if m: nat :| Held(front, tx.inputs, OutPoint(h, m)) {
          assert OutPoint(h, m) in v;
        }
      }
      if tx.outputs != [] && !HasUnspent(v, h) {
        StepHolds(txs, u, v);
      }
    }
  }

  lemma StepHolds(txs: seq<(Hash, Tx)>, u: Utxo, v: Utxo)
    requires txs != [] && Holds(u, txs[..|txs| - 1])
    requires SpendInputs(u, txs[|txs| - 1].1.inputs) == Next(v) && !HasUnspent(v, txs[|txs| - 1].0)
    requires forall op :: op in v <==> Held(txs[..|txs| - 1], txs[|txs| - 1].1.inputs, op)
    ensures Holds(AddOutputs(v, txs[|txs| - 1].0, txs[|txs| - 1].1.outputs), txs)
  {
    hide Names, AddOutputs, SpendInputs;
    var n := |txs| - 1;
    var front, h, tx := txs[..n], txs[n].0, txs[n].1;
    var w := AddOutputs(v, h, tx.outputs);
    AddOutputsHas(v, h, tx.outputs);
    SpendInputsFrom(u, tx.inputs);
    forall op, k: nat | LeftBy(txs, k, op) ensures op in w && w[op] == txs[k].1.outputs[op.index] {
      LeftOneMore(txs, op, k);
      if k != n {
        assert Unspent(front, op);
        assert op in v;
      } else {
        assert op !in v;
      }
    }
    forall op | op in w ensures Unspent(txs, op) {
      if op in v {
        var k: nat :| LeftBy(front, k, op);
        LeftShort(front, op, k);
        LeftOneMore(txs, op, k);
      } else {
        LeftOneMore(txs, op, n);
      }
    }
  }

  lemma LeftShort(txs: seq<(Hash, Tx)>, op: OutPoint, k: nat)
    requires LeftBy(txs, k, op)
    ensures k < |txs|
  {
  }

  lemma CleanOneMore(txs: seq<(Hash, Tx)>)
    requires txs != []
    ensures
      var n := |txs| - 1;
      CleanRun(txs) <==> CleanRun(txs[..n]) && MayFollow(txs[..n], txs[n].0, txs[n].1)
  {
    hide MayFollow;
    var n := |txs| - 1;
    assert forall k :: 0 <= k < n ==> txs[..n][..k] == txs[..k] && txs[..n][k] == txs[k];
  }

  /** The ledger takes a list of transactions exactly when each may follow those before it, and then holds what they
      leave unspent, each output as it was made. */
  lemma {:induction false} TakesClean(txs: seq<(Hash, Tx)>)
    ensures ApplyAll(map[], txs).Next? <==> CleanRun(txs)
    ensures ApplyAll(map[], txs).Next? ==> Holds(ApplyAll(map[], txs).utxo, txs)
  {
    hide CleanRun, Holds, MayFollow, ApplyTx;
    if txs == [] {
      NothingHeld();
    } else {
      var n := |txs| - 1;
      TakesClean(txs[..n]);
      CleanOneMore(txs);
      if ApplyAll(map[], txs[..n]).Next? {
        HoldsOneMore(txs, ApplyAll(map[], txs[..n]).utxo);
      }
    }
  }

  lemma NothingHeld()
    ensures CleanRun([]) && Holds(map[], [])
  {
  }

  /** And it ends in the program's fatal error exactly when some input is stranded. */
  lemma {:induction false} MissesWhenStranded(txs: seq<(Hash, Tx)>)
    ensures ApplyAll(map[], txs) == Missing <==> exists k: nat, i: nat :: StrandedAt(txs, k, i)
  {
    hide CleanRun, Holds, Stranded, SpendInputs;
    if txs == [] {
    } else {
      var n := |txs| - 1;
      MissesWhenStranded(txs[..n]);
      TakesClean(txs[..n]);
      forall k: nat, i: nat | k < n ensures StrandedAt(txs[..n], k, i) <==> StrandedAt(txs, k, i) {
        assert txs[..n][..k] == txs[..k] && txs[..n][k] == txs[k];
      }
      LastMisses(txs);
    }
  }

  lemma LastMisses(txs: seq<(Hash, Tx)>)
    requires txs != []
    ensures
      var n := |txs| - 1;
      CleanRun(txs[..n]) ==>
        && ApplyAll(map[], txs[..n]).Next?
        && (ApplyTx(ApplyAll(map[], txs[..n]).utxo, txs[n].0, txs[n].1) == Missing <==>
              exists i: nat :: StrandedAt(txs, n, i))
  {
    hide CleanRun, Stranded, SpendInputs, Unspent, LeftBy;
    var n := |txs| - 1;
    TakesClean(txs[..n]);
    if CleanRun(txs[..n]) {
      var u := ApplyAll(map[], txs[..n]).utxo;
      MissesStranded(txs[..n], u, txs[n].1.inputs);
      if i: nat :| Stranded(txs[..n], txs[n].1.inputs, i) {
        assert StrandedAt(txs, n, i);
      }
      if i: nat :| StrandedAt(txs, n, i) {
        assert Stranded(txs[..n], txs[n].1.inputs, i);
      }
    }
  }
}
