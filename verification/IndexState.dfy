/** How the index represents the ledger, as a relation between values. */
module IndexState {
  import opened Types
  import opened TxFormat
  import opened Ledger
  import opened Memory
  import opened Allocator

  /** `txoMap` leads from a transaction to its pointer array, `arrays` and `bufs` are what the allocators'
      buffers hold, `where` is the buffer of each unspent output. */
  datatype Index = Index(
    txoMap: map<Hash, Ptr>,
    arrays: map<Ptr, seq<Cell>>,
    bufs: map<Ptr, seq<Byte>>,
    utxo: Utxo,
    where: map<OutPoint, Ptr>
  ) {
    /** Cells of the array of `h` that are settled: all of them, or the first `k` while `h` is being built. */
    ghost function Settled(h: Hash, part: Option<(Hash, nat)>): nat
      requires h in txoMap && txoMap[h] in arrays
    {
      if part.Some? && part.value.0 == h then part.value.1 else |arrays[txoMap[h]]|
    }

    /** An entry exists iff some output is unspent, a cell is null iff that output is spent, the buffer behind
        a cell holds the bytes the output was read from, and no other array or buffer is allocated. The
        transaction named by `part` is under construction. */
    ghost predicate Ok(part: Option<(Hash, nat)>) {
      && Bijective(txoMap, arrays.Keys) && where.Keys == utxo.Keys && Bijective(where, bufs.Keys)
      && (forall h :: h in txoMap ==> EntryOk(h, part))
      && (forall op :: op in utxo ==> OutputOk(op, part))
    }

    ghost predicate EntryOk(h: Hash, part: Option<(Hash, nat)>)
      requires h in txoMap
    {
      && txoMap[h] in arrays && Settled(h, part) <= |arrays[txoMap[h]]|
      && (forall i: nat :: i < Settled(h, part) && OutPoint(h, i) !in utxo ==> arrays[txoMap[h]][i] == Null)
      && (HasUnspent(utxo, h) || (part.Some? && part.value.0 == h))
    }

    ghost predicate OutputOk(op: OutPoint, part: Option<(Hash, nat)>)
      requires op in utxo
    {
      && op.hash in txoMap && txoMap[op.hash] in arrays && op.index < Settled(op.hash, part)
      && Settled(op.hash, part) <= |arrays[txoMap[op.hash]]|
      && op in where && where[op] in bufs
      && arrays[txoMap[op.hash]][op.index] == Address(where[op])
      && bufs[where[op]] == utxo[op].raw && Reparses(utxo[op])
    }

    /** A cell of the array of `h`, nulled and its buffer freed. */
    ghost function Nulled(op: OutPoint): Index
      requires op.hash in txoMap && txoMap[op.hash] in arrays && op.index < |arrays[txoMap[op.hash]]| && op in where
    {
      var a := txoMap[op.hash];
      this.(arrays := arrays[a := arrays[a][op.index := Null]], bufs := bufs - {where[op]},
            utxo := utxo - {op}, where := where - {op})
    }

    /** The entry of `h` erased and its array freed. */
    ghost function Dropped(h: Hash): Index
      requires h in txoMap
    {
      this.(txoMap := txoMap - {h}, arrays := arrays - {txoMap[h]})
    }

    /** A new entry with an array of unknown contents. */
    ghost function Opened(h: Hash, a: Ptr, cells: seq<Cell>): Index {
      this.(txoMap := txoMap[h := a], arrays := arrays[a := cells])
    }

    /** The next output of the transaction under construction stored. */
    ghost function Stored(h: Hash, k: nat, p: Ptr, o: Output): Index
      requires h in txoMap && txoMap[h] in arrays && k < |arrays[txoMap[h]]|
    {
      var a := txoMap[h];
      this.(arrays := arrays[a := arrays[a][k := Address(p)]], bufs := bufs[p := o.raw],
            utxo := utxo[OutPoint(h, k) := o], where := where[OutPoint(h, k) := p])
    }

    lemma Located(op: OutPoint)
      requires Ok(None) && op in utxo
      ensures OutputOk(op, None) && op.hash in txoMap && txoMap[op.hash] in arrays && op in where
      ensures op.index < |arrays[txoMap[op.hash]]|
    {
      hide Bijective;
      assert OutputOk(op, None);
    }

    lemma NulledOk(op: OutPoint)
      requires Ok(None) && op in utxo
      ensures op.hash in txoMap && txoMap[op.hash] in arrays && op in where
      ensures op.index < |arrays[txoMap[op.hash]]|
      ensures Nulled(op).Ok(Some((op.hash, |arrays[txoMap[op.hash]]|)))
    {
      hide Bijective, Index.EntryOk, Index.OutputOk;
      Located(op);
      var s, part := Nulled(op), Some((op.hash, |arrays[txoMap[op.hash]]|));
      BijectiveLess(where, bufs.Keys, op);
      assert s.arrays.Keys == arrays.Keys;
      forall h | h in s.txoMap ensures s.EntryOk(h, part) {
        NulledEntry(op, h);
      }
      forall q | q in s.utxo ensures s.OutputOk(q, part) {
        NulledOutput(op, q);
      }
    }

    lemma NulledEntry(op: OutPoint, h: Hash)
      requires Bijective(txoMap, arrays.Keys) && op in utxo && OutputOk(op, None) && h in txoMap && EntryOk(h, None)
      ensures Nulled(op).EntryOk(h, Some((op.hash, |arrays[txoMap[op.hash]]|)))
    {
      if h != op.hash {
        assert txoMap[h] != txoMap[op.hash];
        var k: nat :| OutPoint(h, k) in utxo;
        assert OutPoint(h, k) in Nulled(op).utxo;
      }
    }

    lemma NulledOutput(op: OutPoint, q: OutPoint)
      requires Bijective(txoMap, arrays.Keys) && Bijective(where, bufs.Keys)
      requires op in utxo && OutputOk(op, None) && q in utxo && q != op && OutputOk(q, None)
      ensures Nulled(op).OutputOk(q, Some((op.hash, |arrays[txoMap[op.hash]]|)))
    {
      assert where[q] != where[op];
      assert q.hash != op.hash ==> txoMap[q.hash] != txoMap[op.hash];
    }

    /** The count of non-null pointers tells whether anything of `h` is left unspent. */
    lemma NullWhenSpent(h: Hash)
      requires h in txoMap && txoMap[h] in arrays && Ok(Some((h, |arrays[txoMap[h]]|)))
      ensures NonNull(arrays[txoMap[h]]) == 0 <==> !HasUnspent(utxo, h)
    {
      hide Bijective;
      var part := Some((h, |arrays[txoMap[h]]|));
      assert EntryOk(h, part);
      NonNullZero(arrays[txoMap[h]]);
      forall i: nat | i < |arrays[txoMap[h]]|
        ensures arrays[txoMap[h]][i] == Null <==> OutPoint(h, i) !in utxo
      {
        if OutPoint(h, i) in utxo { assert OutputOk(OutPoint(h, i), part); }
      }
      forall k: nat | OutPoint(h, k) in utxo ensures k < |arrays[txoMap[h]]| {
        assert OutputOk(OutPoint(h, k), part);
      }
    }

    /** The transaction under construction has all its cells settled and something unspent. */
    lemma ClosedOk(h: Hash)
      requires h in txoMap && txoMap[h] in arrays && Ok(Some((h, |arrays[txoMap[h]]|))) && HasUnspent(utxo, h)
      ensures Ok(None)
    {
      hide Bijective;
      var part := Some((h, |arrays[txoMap[h]]|));
      forall g | g in txoMap ensures EntryOk(g, None) { assert EntryOk(g, part); }
      forall op | op in utxo ensures OutputOk(op, None) { assert OutputOk(op, part); }
    }

    lemma DroppedOk(h: Hash)
      requires h in txoMap && txoMap[h] in arrays && Ok(Some((h, |arrays[txoMap[h]]|))) && !HasUnspent(utxo, h)
      ensures Dropped(h).Ok(None)
    {
      var part, s := Some((h, |arrays[txoMap[h]]|)), Dropped(h);
      BijectiveLess(txoMap, arrays.Keys, h);
      assert s.arrays.Keys == arrays.Keys - {txoMap[h]};
      forall g | g in s.txoMap ensures s.EntryOk(g, None) { assert EntryOk(g, part) && txoMap[g] != txoMap[h]; }
      forall op | op in s.utxo ensures s.OutputOk(op, None) {
        assert OutputOk(op, part) && op.hash != h && txoMap[op.hash] != txoMap[h];
      }
    }

    lemma OpenedOk(h: Hash, a: Ptr, cells: seq<Cell>)
      requires Ok(None) && !HasUnspent(utxo, h) && a !in arrays
      ensures h !in txoMap && Opened(h, a, cells).Ok(Some((h, 0)))
    {
      hide Bijective, HasUnspent;
      assert h in txoMap ==> EntryOk(h, None);
      var s, part := Opened(h, a, cells), Some((h, 0));
      BijectiveMore(txoMap, arrays.Keys, h, a);
      assert s.arrays.Keys == arrays.Keys + {a};
      forall g | g in s.txoMap ensures s.EntryOk(g, part) { OpenedEntry(h, a, cells, g); }
      forall op | op in s.utxo ensures s.OutputOk(op, part) { OpenedOutput(h, a, cells, op); }
      hide Index.EntryOk, Index.OutputOk;
    }

    lemma OpenedEntry(h: Hash, a: Ptr, cells: seq<Cell>, g: Hash)
      requires h !in txoMap && a !in arrays && (g != h ==> g in txoMap && EntryOk(g, None))
      ensures Opened(h, a, cells).EntryOk(g, Some((h, 0)))
    {
      hide HasUnspent;
    }

    lemma OpenedOutput(h: Hash, a: Ptr, cells: seq<Cell>, op: OutPoint)
      requires h !in txoMap && a !in arrays && op in utxo && OutputOk(op, None)
      ensures Opened(h, a, cells).OutputOk(op, Some((h, 0)))
    {
    }

    lemma NotYet(h: Hash, k: nat)
      requires h in txoMap && txoMap[h] in arrays && Ok(Some((h, k)))
      ensures OutPoint(h, k) !in utxo
    {
      hide Bijective;
      assert OutPoint(h, k) in utxo ==> OutputOk(OutPoint(h, k), Some((h, k)));
    }

    lemma StoredOk(h: Hash, k: nat, p: Ptr, o: Output)
      requires h in txoMap && txoMap[h] in arrays && k < |arrays[txoMap[h]]| && Ok(Some((h, k)))
      requires p !in bufs && Reparses(o)
      ensures OutPoint(h, k) !in utxo && Stored(h, k, p, o).Ok(Some((h, k + 1)))
    {
      hide Bijective, Index.EntryOk, Index.OutputOk;
      NotYet(h, k);
      var s := Stored(h, k, p, o);
      BijectiveMore(where, bufs.Keys, OutPoint(h, k), p);
      assert s.bufs.Keys == bufs.Keys + {p} && s.arrays.Keys == arrays.Keys;
      forall g | g in s.txoMap ensures s.EntryOk(g, Some((h, k + 1))) { StoredEntry(h, k, p, o, g); }
      forall q | q in s.utxo ensures s.OutputOk(q, Some((h, k + 1))) { StoredOutput(h, k, p, o, q); }
    }

    lemma StoredEntry(h: Hash, k: nat, p: Ptr, o: Output, g: Hash)
      requires h in txoMap && txoMap[h] in arrays && k < |arrays[txoMap[h]]| && Bijective(txoMap, arrays.Keys)
      requires g in txoMap && EntryOk(g, Some((h, k)))
      ensures Stored(h, k, p, o).EntryOk(g, Some((h, k + 1)))
    {
      if g != h {
        assert txoMap[g] != txoMap[h];
        var i: nat :| OutPoint(g, i) in utxo;
        assert OutPoint(g, i) in Stored(h, k, p, o).utxo;
      }
    }

    lemma StoredOutput(h: Hash, k: nat, p: Ptr, o: Output, q: OutPoint)
      requires h in txoMap && txoMap[h] in arrays && k < |arrays[txoMap[h]]| && Bijective(txoMap, arrays.Keys)
      requires p !in bufs && Reparses(o)
      requires q != OutPoint(h, k) ==> q in utxo && OutputOk(q, Some((h, k)))
      ensures Stored(h, k, p, o).OutputOk(q, Some((h, k + 1)))
    {
      if q.hash != h { assert txoMap[q.hash] != txoMap[h]; }
    }

    /** On a settled index there are as many buffers as unspent outputs and as many arrays as entries. */
    lemma Counts()
      requires Ok(None)
      ensures |bufs.Keys| == |utxo.Keys| && |arrays.Keys| == |txoMap|
    {
      BijectiveCount(txoMap, arrays.Keys);
      BijectiveCount(where, bufs.Keys);
      assert |where| == |where.Keys|;
    }
  }

  /** The index of an empty ledger. */
  lemma NothingOk()
    ensures Index(map[], map[], map[], map[], map[]).Ok(None)
  {
  }

  /** `m` maps its keys one to one onto `values`. */
  ghost predicate Bijective<X, Y>(m: map<X, Y>, values: set<Y>) {
    && (forall x :: x in m ==> m[x] in values)
    && (forall y :: y in values ==> exists x :: x in m && m[x] == y)
    && (forall x, x' :: x in m && x' in m && m[x] == m[x'] ==> x == x')
  }

  lemma BijectiveLess<X, Y>(m: map<X, Y>, values: set<Y>, x: X)
    requires Bijective(m, values) && x in m
    ensures Bijective(m - {x}, values - {m[x]})
  {
    forall y | y in values - {m[x]} ensures exists x' :: x' in m - {x} && (m - {x})[x'] == y {
      var x' :| x' in m && m[x'] == y;
      assert x' in m - {x};
    }
  }

  lemma BijectiveMore<X, Y>(m: map<X, Y>, values: set<Y>, x: X, y: Y)
    requires Bijective(m, values) && x !in m && y !in values
    ensures Bijective(m[x := y], values + {y})
  {
    var m' := m[x := y];
    forall z | z in values + {y} ensures exists x' :: x' in m' && m'[x'] == z {
      if z == y { assert m'[x] == y; }
      else { var x' :| x' in m && m[x'] == z; assert m'[x'] == z; }
    }
  }

  lemma {:induction false} BijectiveCount<X, Y>(m: map<X, Y>, values: set<Y>)
    requires Bijective(m, values)
    ensures |m| == |values|
    decreases |m|
  {
    if m == map[] {
      assert values == {};
    } else {
      var x :| x in m;
      BijectiveLess(m, values, x);
      BijectiveCount(m - {x}, values - {m[x]});
    }
  }

  /** The bytes of a stored output read back as that output. */
  ghost predicate Reparses(o: Output) {
    OutputAt(o.raw, 0) == Some((o, |o.raw|))
  }

  lemma ReadReparses(s: seq<Byte>, p: nat)
    requires OutputAt(s, p).Some?
    ensures Reparses(OutputAt(s, p).value.0)
  {
    OutputBounds(s, p);
    OutputSame(s, p, OutputAt(s, p).value.0.raw, 0);
  }
}
