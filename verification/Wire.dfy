/** The wire format of transactions and blocks, written out as bytes: what the parser reads is exactly what the
    format says, and every transaction can be written. */
module Wire {
  import opened Types
  import opened LittleEndian
  import opened TxFormat
  import opened Parser

  // ---------------------------------------------------------------------------------
  // The format, independent of the reader

  /** A count in one of its four encodings; a longer one than needed is allowed. */
  predicate CountBytes(b: seq<Byte>, n: nat) {
    || (b == [n] && n < 0xFD)
    || (b != [] && b[0] == 0xFD && Is2(b[1..], n))
    || (b != [] && b[0] == 0xFE && Is4(b[1..], n))
    || (b != [] && b[0] == 0xFF && Is8(b[1..], n))
  }

  /** A script behind its length. */
  ghost predicate ScriptBytes(b: seq<Byte>, script: seq<Byte>) {
    exists k :: 0 <= k <= |b| && CountBytes(b[..k], |script|) && b[k..] == script
  }

  /** Eight octets of value, then the script. */
  ghost predicate OutputBytes(b: seq<Byte>, o: Output) {
    |b| >= 8 && Is8(b[..8], o.value) && ScriptBytes(b[8..], o.script) && o.raw == b
  }

  /** The upstream hash, four octets of index, the script, four octets of sequence number. */
  ghost predicate InputBytes(b: seq<Byte>, i: Input) {
    && |b| >= 40 && b[..32] == i.upHash && Is4(b[32..36], i.upIndex)
    && ScriptBytes(b[36..|b| - 4], i.script)
  }

  ghost predicate InputsBytes(b: seq<Byte>, ins: seq<Input>)
    decreases |ins|
  {
    if ins == [] then b == []
    else exists k ::
      0 <= k <= |b| && InputsBytes(b[..k], ins[..|ins| - 1]) && InputBytes(b[k..], ins[|ins| - 1])
  }

  ghost predicate OutputsBytes(b: seq<Byte>, outs: seq<Output>)
    decreases |outs|
  {
    if outs == [] then b == []
    else exists k ::
      0 <= k <= |b| && OutputsBytes(b[..k], outs[..|outs| - 1]) && OutputBytes(b[k..], outs[|outs| - 1])
  }

  ghost predicate InputListBytes(b: seq<Byte>, ins: seq<Input>) {
    exists k :: 0 <= k <= |b| && CountBytes(b[..k], |ins|) && InputsBytes(b[k..], ins)
  }

  ghost predicate OutputListBytes(b: seq<Byte>, outs: seq<Output>) {
    exists k :: 0 <= k <= |b| && CountBytes(b[..k], |outs|) && OutputsBytes(b[k..], outs)
  }

  /** Four octets of version, the inputs, the outputs, four octets of lock time. */
  ghost predicate TxBytes(b: seq<Byte>, tx: Tx) {
    |b| >= 8 && exists k ::
      4 <= k <= |b| - 4 && InputListBytes(b[4..k], tx.inputs) && OutputListBytes(b[k..|b| - 4], tx.outputs)
  }

  /** Transactions one after the other, each with the hash of its own bytes. */
  ghost predicate TxsBytes(hashOf: seq<Byte> -> Hash, b: seq<Byte>, txs: seq<(Hash, Tx)>)
    decreases |txs|
  {
    if txs == [] then b == []
    else
      var n := |txs| - 1;
      exists k ::
        0 <= k <= |b| && TxsBytes(hashOf, b[..k], txs[..n]) && TxBytes(b[k..], txs[n].1) && txs[n].0 == hashOf(b[k..])
  }

  /** Eighty octets of header, the count, the transactions; what follows them is not looked at. */
  ghost predicate BlockBytes(hashOf: seq<Byte> -> Hash, b: seq<Byte>, txs: seq<(Hash, Tx)>) {
    |b| >= 80 && exists k, e ::
      80 <= k <= e <= |b| && CountBytes(b[80..k], |txs|) && TxsBytes(hashOf, b[k..e], txs)
  }

  // ---------------------------------------------------------------------------------
  // The reader is exact

  lemma {:induction false} LoadLEIs(s: seq<Byte>, p: nat, n: nat)
    requires p <= |s|
    ensures p + 2 <= |s| ==> (LoadLE(s, p, 2) == n <==> Is2(s[p..p + 2], n))
    ensures p + 4 <= |s| ==> (LoadLE(s, p, 4) == n <==> Is4(s[p..p + 4], n))
    ensures p + 8 <= |s| ==> (LoadLE(s, p, 8) == n <==> Is8(s[p..p + 8], n))
  {
    if p + 2 <= |s| {
      assert LoadLE(s, p, 2) == s[p] as int + 256 * s[p + 1] as int;
    }
    if p + 4 <= |s| {
      assert LoadLE(s, p + 2, 2) == s[p + 2] as int + 256 * s[p + 3] as int;
      assert LoadLE(s, p, 4) == s[p] as int + 256 * (s[p + 1] as int + 256 * LoadLE(s, p + 2, 2));
    }
    if p + 8 <= |s| {
      assert LoadLE(s, p + 6, 2) == s[p + 6] as int + 256 * s[p + 7] as int;
      assert LoadLE(s, p + 4, 4) == s[p + 4] as int + 256 * (s[p + 5] as int + 256 * LoadLE(s, p + 6, 2));
      assert LoadLE(s, p + 2, 6) == s[p + 2] as int + 256 * (s[p + 3] as int + 256 * LoadLE(s, p + 4, 4));
      assert LoadLE(s, p, 8) == s[p] as int + 256 * (s[p + 1] as int + 256 * LoadLE(s, p + 2, 6));
    }
  }

  lemma VarIntExact(s: seq<Byte>, p: nat, n: nat, e: nat)
    ensures VarInt(s, p) == Some((n, e)) <==> p <= e <= |s| && CountBytes(s[p..e], n)
  {
    hide LoadLE, Is2, Is4, Is8;
    if p + 1 <= |s| {
      LoadLEIs(s, p + 1, n);
    }
    if p <= e <= |s| && |s[p..e]| > 0 {
      assert s[p..e][1..] == s[p + 1..e];
    }
    IsLengths(s, p, e, n);
  }

  lemma IsLengths(s: seq<Byte>, p: nat, e: nat, n: nat)
    ensures p <= e <= |s| && Is2(s[p..e], n) ==> e == p + 2
    ensures p <= e <= |s| && Is4(s[p..e], n) ==> e == p + 4
    ensures p <= e <= |s| && Is8(s[p..e], n) ==> e == p + 8
    ensures p + 1 <= e <= |s| && Is2(s[p + 1..e], n) ==> e == p + 3
    ensures p + 1 <= e <= |s| && Is4(s[p + 1..e], n) ==> e == p + 5
    ensures p + 1 <= e <= |s| && Is8(s[p + 1..e], n) ==> e == p + 9
  {
  }

  lemma Cut(s: seq<Byte>, p: nat, e: nat, k: nat)
    requires p + k <= e <= |s|
    ensures s[p..e][..k] == s[p..p + k] && s[p..e][k..] == s[p + k..e]
  {
  }

  lemma Middle(s: seq<Byte>, p: nat, e: nat, i: nat, j: nat)
    requires i <= j && p + j <= e <= |s|
    ensures s[p..e][i..j] == s[p + i..p + j]
  {
    var a, b := s[p..e][i..j], s[p + i..p + j];
    assert |a| == |b| && forall k :: 0 <= k < |a| ==> a[k] == b[k];
  }

  lemma ScriptExact(s: seq<Byte>, p: nat, script: seq<Byte>, e: nat)
    ensures Script(s, p) == Some((script, e)) <==> p <= e <= |s| && ScriptBytes(s[p..e], script)
  {
    hide Script, ScriptBytes;
    if Script(s, p) == Some((script, e)) {
      ScriptRead(s, p, script, e);
    }
    if p <= e <= |s| && ScriptBytes(s[p..e], script) {
      ScriptFound(s, p, script, e);
    }
  }

  lemma ScriptRead(s: seq<Byte>, p: nat, script: seq<Byte>, e: nat)
    requires Script(s, p) == Some((script, e))
    ensures p <= e <= |s| && ScriptBytes(s[p..e], script)
  {
    hide VarInt, CountBytes;
    var (n, q) := VarInt(s, p).value;
    VarIntExact(s, p, n, q);
    Cut(s, p, e, q - p);
  }

  lemma ScriptFound(s: seq<Byte>, p: nat, script: seq<Byte>, e: nat)
    requires p <= e <= |s| && ScriptBytes(s[p..e], script)
    ensures Script(s, p) == Some((script, e))
  {
    hide VarInt, CountBytes;
    var k :| 0 <= k <= e - p && CountBytes(s[p..e][..k], |script|) && s[p..e][k..] == script;
    Cut(s, p, e, k);
    VarIntExact(s, p, |script|, p + k);
  }

  lemma OutputExact(s: seq<Byte>, p: nat, o: Output, e: nat)
    ensures OutputAt(s, p) == Some((o, e)) <==> p <= e <= |s| && OutputBytes(s[p..e], o)
  {
    hide Script, ScriptBytes, LoadLE, Is8;
    if p + 8 <= |s| {
      LoadLEIs(s, p, o.value);
      ScriptExact(s, p + 8, o.script, e);
      if p + 8 <= e <= |s| {
        Cut(s, p, e, 8);
      }
      if OutputAt(s, p).Some? {
        ScriptAhead(s, p + 8);
      }
    }
  }

  lemma InputExact(s: seq<Byte>, p: nat, i: Input, e: nat)
    ensures InputAt(s, p) == Some((i, e)) <==> p <= e <= |s| && InputBytes(s[p..e], i)
  {
    hide Script, ScriptBytes, LoadLE, Is4;
    if p + 40 <= e <= |s| {
      LoadLEIs(s, p + 32, i.upIndex);
      ScriptExact(s, p + 36, i.script, e - 4);
      Cut(s, p, e, 32);
      Middle(s, p, e, 32, 36);
      Middle(s, p, e, 36, e - 4 - p);
    }
    if InputAt(s, p).Some? {
      InputBounds(s, p);
    }
  }

  lemma {:induction false} InputsRead(s: seq<Byte>, p: nat, n: nat, ins: seq<Input>, e: nat)
    requires p <= |s| && InputsAt(s, p, n) == Some((ins, e))
    ensures |ins| == n && p <= e <= |s| && InputsBytes(s[p..e], ins)
    decreases n
  {
    hide InputAt, InputBytes;
    if n == 0 {
    } else {
      var (front, q) := InputsAt(s, p, n - 1).value;
      InputsRead(s, p, n - 1, front, q);
      InputBounds(s, q);
      InputExact(s, q, ins[n - 1], e);
      assert ins[..n - 1] == front;
      Cut(s, p, e, q - p);
    }
  }

  lemma {:induction false} InputsFound(s: seq<Byte>, p: nat, ins: seq<Input>, e: nat)
    requires p <= e <= |s| && InputsBytes(s[p..e], ins)
    ensures InputsAt(s, p, |ins|) == Some((ins, e))
    decreases |ins|
  {
    hide InputAt, InputBytes;
    if ins == [] {
    } else {
      var n := |ins| - 1;
      var k :| 0 <= k <= e - p && InputsBytes(s[p..e][..k], ins[..n]) && InputBytes(s[p..e][k..], ins[n]);
      Cut(s, p, e, k);
      InputsFound(s, p, ins[..n], p + k);
      InputExact(s, p + k, ins[n], e);
      assert ins == ins[..n] + [ins[n]];
    }
  }

  lemma {:induction false} InputsExact(s: seq<Byte>, p: nat, n: nat, ins: seq<Input>, e: nat)
    requires p <= |s|
    ensures InputsAt(s, p, n) == Some((ins, e)) <==> |ins| == n && p <= e <= |s| && InputsBytes(s[p..e], ins)
  {
    hide InputsAt, InputsBytes;
    if InputsAt(s, p, n) == Some((ins, e)) {
      InputsRead(s, p, n, ins, e);
    }
    if |ins| == n && p <= e <= |s| && InputsBytes(s[p..e], ins) {
      InputsFound(s, p, ins, e);
    }
  }

  lemma {:induction false} OutputsRead(s: seq<Byte>, p: nat, n: nat, outs: seq<Output>, e: nat)
    requires p <= |s| && OutputsAt(s, p, n) == Some((outs, e))
    ensures |outs| == n && p <= e <= |s| && OutputsBytes(s[p..e], outs)
    decreases n
  {
    hide OutputAt, OutputBytes;
    if n == 0 {
    } else {
      var (front, q) := OutputsAt(s, p, n - 1).value;
      OutputsRead(s, p, n - 1, front, q);
      OutputBounds(s, q);
      OutputExact(s, q, outs[n - 1], e);
      assert outs[..n - 1] == front;
      Cut(s, p, e, q - p);
    }
  }

  lemma {:induction false} OutputsFound(s: seq<Byte>, p: nat, outs: seq<Output>, e: nat)
    requires p <= e <= |s| && OutputsBytes(s[p..e], outs)
    ensures OutputsAt(s, p, |outs|) == Some((outs, e))
    decreases |outs|
  {
    hide OutputAt, OutputBytes;
    if outs == [] {
    } else {
      var n := |outs| - 1;
      var k :| 0 <= k <= e - p && OutputsBytes(s[p..e][..k], outs[..n]) && OutputBytes(s[p..e][k..], outs[n]);
      Cut(s, p, e, k);
      OutputsFound(s, p, outs[..n], p + k);
      OutputExact(s, p + k, outs[n], e);
      assert outs == outs[..n] + [outs[n]];
    }
  }

  lemma {:induction false} OutputsExact(s: seq<Byte>, p: nat, n: nat, outs: seq<Output>, e: nat)
    requires p <= |s|
    ensures OutputsAt(s, p, n) == Some((outs, e)) <==> |outs| == n && p <= e <= |s| && OutputsBytes(s[p..e], outs)
  {
    hide OutputsAt, OutputsBytes;
    if OutputsAt(s, p, n) == Some((outs, e)) {
      OutputsRead(s, p, n, outs, e);
    }
    if |outs| == n && p <= e <= |s| && OutputsBytes(s[p..e], outs) {
      OutputsFound(s, p, outs, e);
    }
  }

  lemma InputListExact(s: seq<Byte>, p: nat, ins: seq<Input>, e: nat)
    ensures InputListAt(s, p) == Some((ins, e)) <==> p <= e <= |s| && InputListBytes(s[p..e], ins)
  {
    hide VarInt, InputsAt, CountBytes, InputsBytes;
    if InputListAt(s, p) == Some((ins, e)) {
      var (n, q) := VarInt(s, p).value;
      VarIntExact(s, p, n, q);
      InputsExact(s, q, n, ins, e);
      Cut(s, p, e, q - p);
    }
    if p <= e <= |s| && InputListBytes(s[p..e], ins) {
      var k :| 0 <= k <= e - p && CountBytes(s[p..e][..k], |ins|) && InputsBytes(s[p..e][k..], ins);
      Cut(s, p, e, k);
      VarIntExact(s, p, |ins|, p + k);
      InputsExact(s, p + k, |ins|, ins, e);
    }
  }

  lemma OutputListExact(s: seq<Byte>, p: nat, outs: seq<Output>, e: nat)
    ensures OutputListAt(s, p) == Some((outs, e)) <==> p <= e <= |s| && OutputListBytes(s[p..e], outs)
  {
    hide VarInt, OutputsAt, CountBytes, OutputsBytes;
    if OutputListAt(s, p) == Some((outs, e)) {
      var (n, q) := VarInt(s, p).value;
      VarIntExact(s, p, n, q);
      OutputsExact(s, q, n, outs, e);
      Cut(s, p, e, q - p);
    }
    if p <= e <= |s| && OutputListBytes(s[p..e], outs) {
      var k :| 0 <= k <= e - p && CountBytes(s[p..e][..k], |outs|) && OutputsBytes(s[p..e][k..], outs);
      Cut(s, p, e, k);
      VarIntExact(s, p, |outs|, p + k);
      OutputsExact(s, p + k, |outs|, outs, e);
    }
  }

  /** What is read as a transaction is exactly what the format says is one. */
  lemma TxExact(s: seq<Byte>, p: nat, tx: Tx, e: nat)
    ensures TxAt(s, p) == Some((tx, e)) <==> p <= e <= |s| && TxBytes(s[p..e], tx)
  {
    hide InputListAt, OutputListAt, InputListBytes, OutputListBytes;
    if TxAt(s, p) == Some((tx, e)) {
      var q := InputListAt(s, p + 4).value.1;
      InputListExact(s, p + 4, tx.inputs, q);
      OutputListExact(s, q, tx.outputs, e - 4);
      Middle(s, p, e, 4, q - p);
      Middle(s, p, e, q - p, e - 4 - p);
    }
    if p <= e <= |s| && TxBytes(s[p..e], tx) {
      var k :| 4 <= k <= e - p - 4 && InputListBytes(s[p..e][4..k], tx.inputs)
               && OutputListBytes(s[p..e][k..e - p - 4], tx.outputs);
      Middle(s, p, e, 4, k);
      Middle(s, p, e, k, e - 4 - p);
      InputListExact(s, p + 4, tx.inputs, p + k);
      OutputListExact(s, p + k, tx.outputs, e - 4);
    }
  }

  lemma {:induction false} TxsRead(hashOf: seq<Byte> -> Hash, s: seq<Byte>, p: nat, n: nat, txs: seq<(Hash, Tx)>,
                                   e: nat)
    requires p <= |s| && TxsAt(hashOf, s, p, n) == Some((txs, e))
    ensures |txs| == n && p <= e <= |s| && TxsBytes(hashOf, s[p..e], txs)
    decreases n
  {
    hide TxAt, TxBytes;
    if n == 0 {
    } else {
      var (front, q) := TxsAt(hashOf, s, p, n - 1).value;
      TxsRead(hashOf, s, p, n - 1, front, q);
      TxBounds(s, q);
      TxExact(s, q, txs[n - 1].1, e);
      assert txs[..n - 1] == front;
      Cut(s, p, e, q - p);
    }
  }

  /** Where the last transaction starts. */
  lemma TxsSplit(hashOf: seq<Byte> -> Hash, b: seq<Byte>, txs: seq<(Hash, Tx)>) returns (k: nat)
    requires txs != [] && TxsBytes(hashOf, b, txs)
    ensures
      var n := |txs| - 1;
      && k <= |b| && TxsBytes(hashOf, b[..k], txs[..n]) && TxBytes(b[k..], txs[n].1) && txs[n].0 == hashOf(b[k..])
  {
    hide TxBytes;
    var n := |txs| - 1;
    k :| 0 <= k <= |b| && TxsBytes(hashOf, b[..k], txs[..n]) && TxBytes(b[k..], txs[n].1)
         && txs[n].0 == hashOf(b[k..]);
  }

  lemma {:induction false} TxsOneMore(hashOf: seq<Byte> -> Hash, s: seq<Byte>, p: nat, front: seq<(Hash, Tx)>, q: nat,
                                      tx: Tx, e: nat)
    requires TxsAt(hashOf, s, p, |front|) == Some((front, q)) && TxAt(s, q) == Some((tx, e))
    ensures e <= |s| && q <= e
    ensures TxsAt(hashOf, s, p, |front| + 1) == Some((front + [(hashOf(s[q..e]), tx)], e))
  {
    hide TxAt;
    TxBounds(s, q);
  }

  lemma NoTxsFound(hashOf: seq<Byte> -> Hash, s: seq<Byte>, p: nat, e: nat)
    requires p <= e <= |s| && TxsBytes(hashOf, s[p..e], [])
    ensures TxsAt(hashOf, s, p, 0) == Some(([], e))
  {
  }

  lemma {:induction false} TxsFound(hashOf: seq<Byte> -> Hash, s: seq<Byte>, p: nat, txs: seq<(Hash, Tx)>, e: nat)
    requires p <= e <= |s| && TxsBytes(hashOf, s[p..e], txs)
    ensures TxsAt(hashOf, s, p, |txs|) == Some((txs, e))
    decreases |txs|
  {
    hide TxsAt, TxsBytes, TxAt, TxBytes;
    if txs == [] {
      NoTxsFound(hashOf, s, p, e);
    } else {
      var n := |txs| - 1;
      var k := TxsSplit(hashOf, s[p..e], txs);
      Cut(s, p, e, k);
      TxsFound(hashOf, s, p, txs[..n], p + k);
      TxExact(s, p + k, txs[n].1, e);
      TxsOneMore(hashOf, s, p, txs[..n], p + k, txs[n].1, e);
      assert txs == txs[..n] + [txs[n]];
    }
  }

  lemma {:induction false} TxsExact(hashOf: seq<Byte> -> Hash, s: seq<Byte>, p: nat, n: nat, txs: seq<(Hash, Tx)>,
                                    e: nat)
    requires p <= |s|
    ensures TxsAt(hashOf, s, p, n) == Some((txs, e)) <==>
      |txs| == n && p <= e <= |s| && TxsBytes(hashOf, s[p..e], txs)
  {
    hide TxsAt, TxsBytes;
    if TxsAt(hashOf, s, p, n) == Some((txs, e)) {
      TxsRead(hashOf, s, p, n, txs, e);
    }
    if |txs| == n && p <= e <= |s| && TxsBytes(hashOf, s[p..e], txs) {
      TxsFound(hashOf, s, p, txs, e);
    }
  }

  /** And what is read as a block, hashes included. */
  lemma BlockExact(hashOf: seq<Byte> -> Hash, s: seq<Byte>, txs: seq<(Hash, Tx)>)
    ensures BlockAt(hashOf, s) == Some(txs) <==> BlockBytes(hashOf, s, txs)
  {
    hide VarInt, TxsAt, CountBytes, TxsBytes;
    if BlockAt(hashOf, s) == Some(txs) {
      var (n, q) := VarInt(s, HEADER_SIZE).value;
      VarIntExact(s, HEADER_SIZE, n, q);
      var (all, e) := TxsAt(hashOf, s, q, n).value;
      TxsExact(hashOf, s, q, n, all, e);
    }
    if BlockBytes(hashOf, s, txs) {
      var k, e :| 80 <= k <= e <= |s| && CountBytes(s[80..k], |txs|) && TxsBytes(hashOf, s[k..e], txs);
      VarIntExact(s, HEADER_SIZE, |txs|, k);
      TxsExact(hashOf, s, k, |txs|, txs, e);
    }
  }

  // ---------------------------------------------------------------------------------
  // A writer: every transaction has bytes, and they read back

  const TWO64: nat := 0x1_0000_0000_0000_0000

  function Count(n: nat): (b: seq<Byte>)
    requires n < TWO64
    ensures CountBytes(b, n)
  {
    if n < 0xFD then [n]
    else if n < 0x1_0000 then [0xFD] + LE2(n)
    else if n < 0x1_0000_0000 then [0xFE] + LE4(n)
    else [0xFF] + LE8(n)
  }

  predicate Fits(script: seq<Byte>) {
    |script| < TWO64
  }

  function WrittenScript(script: seq<Byte>): seq<Byte>
    requires Fits(script)
  {
    Count(|script|) + script
  }

  function WrittenOutput(value: nat, script: seq<Byte>): seq<Byte>
    requires value < TWO64 && Fits(script)
  {
    LE8(value) + WrittenScript(script)
  }

  function WrittenInput(i: Input, sequence: nat): seq<Byte>
    requires i.upIndex < 0x1_0000_0000 && sequence < 0x1_0000_0000 && Fits(i.script)
  {
    i.upHash + LE4(i.upIndex) + WrittenScript(i.script) + LE4(sequence)
  }

  /** What the fields of the format can hold; an output remembers the bytes it was written as. */
  predicate ProperInput(i: Input) {
    |i.upHash| == 32 && i.upIndex < 0x1_0000_0000 && Fits(i.script)
  }

  predicate ProperOutput(o: Output) {
    o.value < TWO64 && Fits(o.script) && o.raw == WrittenOutput(o.value, o.script)
  }

  predicate ProperTx(tx: Tx) {
    && |tx.inputs| < TWO64 && (forall i :: 0 <= i < |tx.inputs| ==> ProperInput(tx.inputs[i]))
    && |tx.outputs| < TWO64 && (forall i :: 0 <= i < |tx.outputs| ==> ProperOutput(tx.outputs[i]))
  }

  function WrittenInputs(ins: seq<Input>, sequence: nat): seq<Byte>
    requires sequence < 0x1_0000_0000 && forall i :: 0 <= i < |ins| ==> ProperInput(ins[i])
  {
    if ins == [] then []
    else
      var n := |ins| - 1;
      assert ProperInput(ins[n]);
      WrittenInputs(ins[..n], sequence) + WrittenInput(ins[n], sequence)
  }

  function WrittenOutputs(outs: seq<Output>): seq<Byte>
    requires forall i :: 0 <= i < |outs| ==> ProperOutput(outs[i])
  {
    if outs == [] then []
    else
      var n := |outs| - 1;
      assert ProperOutput(outs[n]);
      WrittenOutputs(outs[..n]) + WrittenOutput(outs[n].value, outs[n].script)
  }

  function Written(version: nat, tx: Tx, sequence: nat, lockTime: nat): seq<Byte>
    requires version < 0x1_0000_0000 && sequence < 0x1_0000_0000 && lockTime < 0x1_0000_0000 && ProperTx(tx)
  {
    LE4(version) + (Count(|tx.inputs|) + WrittenInputs(tx.inputs, sequence))
    + (Count(|tx.outputs|) + WrittenOutputs(tx.outputs)) + LE4(lockTime)
  }

  lemma ScriptWritten(script: seq<Byte>)
    requires Fits(script)
    ensures ScriptBytes(WrittenScript(script), script)
  {
    hide Count, CountBytes;
    var b, k := WrittenScript(script), |Count(|script|)|;
    assert b[..k] == Count(|script|) && b[k..] == script;
  }

  lemma OutputWritten(o: Output)
    requires ProperOutput(o)
    ensures OutputBytes(WrittenOutput(o.value, o.script), o)
  {
    hide LE8, Is8, WrittenScript, ScriptBytes;
    ScriptWritten(o.script);
    EightOctets(o.value);
    var b := WrittenOutput(o.value, o.script);
    assert b[..8] == LE8(o.value) && b[8..] == WrittenScript(o.script);
  }

  lemma EightOctets(n: nat)
    requires n < TWO64
    ensures |LE8(n)| == 8
  {
  }

  lemma FourOctets(n: nat)
    requires n < 0x1_0000_0000
    ensures |LE4(n)| == 4
  {
  }

  lemma InputWritten(i: Input, sequence: nat)
    requires ProperInput(i) && sequence < 0x1_0000_0000
    ensures InputBytes(WrittenInput(i, sequence), i)
  {
    hide LE4, Is4, WrittenScript, ScriptBytes;
    ScriptWritten(i.script);
    FourOctets(i.upIndex);
    FourOctets(sequence);
    var b := WrittenInput(i, sequence);
    assert b[..32] == i.upHash && b[32..36] == LE4(i.upIndex) && b[36..|b| - 4] == WrittenScript(i.script);
  }

  lemma {:induction false} InputsWritten(ins: seq<Input>, sequence: nat)
    requires sequence < 0x1_0000_0000 && forall i :: 0 <= i < |ins| ==> ProperInput(ins[i])
    ensures InputsBytes(WrittenInputs(ins, sequence), ins)
    decreases |ins|
  {
    hide WrittenInput, InputBytes;
    if ins == [] {
    } else {
      var n := |ins| - 1;
      var a, c := WrittenInputs(ins[..n], sequence), WrittenInput(ins[n], sequence);
      InputsWritten(ins[..n], sequence);
      InputWritten(ins[n], sequence);
      assert (a + c)[..|a|] == a && (a + c)[|a|..] == c;
    }
  }

  lemma {:induction false} OutputsWritten(outs: seq<Output>)
    requires forall i :: 0 <= i < |outs| ==> ProperOutput(outs[i])
    ensures OutputsBytes(WrittenOutputs(outs), outs)
    decreases |outs|
  {
    hide WrittenOutput, OutputBytes;
    if outs == [] {
    } else {
      var n := |outs| - 1;
      var a, c := WrittenOutputs(outs[..n]), WrittenOutput(outs[n].value, outs[n].script);
      OutputsWritten(outs[..n]);
      OutputWritten(outs[n]);
      assert (a + c)[..|a|] == a && (a + c)[|a|..] == c;
    }
  }

  lemma TxWritten(version: nat, tx: Tx, sequence: nat, lockTime: nat)
    requires version < 0x1_0000_0000 && sequence < 0x1_0000_0000 && lockTime < 0x1_0000_0000 && ProperTx(tx)
    ensures TxBytes(Written(version, tx, sequence, lockTime), tx)
  {
    hide LE4, Count, CountBytes, WrittenInputs, WrittenOutputs, InputsBytes, OutputsBytes;
    InputsWritten(tx.inputs, sequence);
    OutputsWritten(tx.outputs);
    var c, d := Count(|tx.inputs|), Count(|tx.outputs|);
    var ins, outs := c + WrittenInputs(tx.inputs, sequence), d + WrittenOutputs(tx.outputs);
    assert ins[..|c|] == c && ins[|c|..] == WrittenInputs(tx.inputs, sequence);
    assert InputListBytes(ins, tx.inputs);
    assert outs[..|d|] == d && outs[|d|..] == WrittenOutputs(tx.outputs);
    assert OutputListBytes(outs, tx.outputs);
    FourOctets(version);
    FourOctets(lockTime);
    var b, k := Written(version, tx, sequence, lockTime), 4 + |ins|;
    assert b[4..k] == ins && b[k..|b| - 4] == outs;
  }

  /** Every transaction that fits the format reads back from what was written, whatever follows. */
  lemma RoundTrip(version: nat, tx: Tx, sequence: nat, lockTime: nat, rest: seq<Byte>)
    requires version < 0x1_0000_0000 && sequence < 0x1_0000_0000 && lockTime < 0x1_0000_0000 && ProperTx(tx)
    ensures
      var b := Written(version, tx, sequence, lockTime);
      TxAt(b + rest, 0) == Some((tx, |b|))
  {
    hide Written, TxBytes, TxAt;
    var b := Written(version, tx, sequence, lockTime);
    TxWritten(version, tx, sequence, lockTime);
    assert (b + rest)[0..|b|] == b;
    TxExact(b + rest, 0, tx, |b|);
  }

  /** A block of such transactions, behind any header. */
  function WrittenTxs(txs: seq<Tx>): seq<Byte>
    requires forall i :: 0 <= i < |txs| ==> ProperTx(txs[i])
  {
    if txs == [] then [] else WrittenTxs(txs[..|txs| - 1]) + Written(1, txs[|txs| - 1], 0xFFFF_FFFF, 0)
  }

  /** The transactions with their hashes. */
  function Hashed(hashOf: seq<Byte> -> Hash, txs: seq<Tx>): (r: seq<(Hash, Tx)>)
    requires forall i :: 0 <= i < |txs| ==> ProperTx(txs[i])
    ensures |r| == |txs|
  {
    seq(|txs|, i requires 0 <= i < |txs| => (hashOf(Written(1, txs[i], 0xFFFF_FFFF, 0)), txs[i]))
  }

  lemma {:induction false} TxsWritten(hashOf: seq<Byte> -> Hash, txs: seq<Tx>)
    requires forall i :: 0 <= i < |txs| ==> ProperTx(txs[i])
    ensures TxsBytes(hashOf, WrittenTxs(txs), Hashed(hashOf, txs))
    decreases |txs|
  {
    hide Written, TxBytes, ProperTx;
    if txs == [] {
    } else {
      var n := |txs| - 1;
      var a, c := WrittenTxs(txs[..n]), Written(1, txs[n], 0xFFFF_FFFF, 0);
      TxsWritten(hashOf, txs[..n]);
      TxWritten(1, txs[n], 0xFFFF_FFFF, 0);
      assert (a + c)[..|a|] == a && (a + c)[|a|..] == c;
      assert Hashed(hashOf, txs)[..n] == Hashed(hashOf, txs[..n]);
    }
  }

  lemma {:induction false} BlockRoundTrip(hashOf: seq<Byte> -> Hash, header: seq<Byte>, txs: seq<Tx>)
    requires |header| == 80 && |txs| < TWO64 && forall i :: 0 <= i < |txs| ==> ProperTx(txs[i])
    ensures BlockAt(hashOf, header + Count(|txs|) + WrittenTxs(txs)) == Some(Hashed(hashOf, txs))
  {
    hide Count, CountBytes, WrittenTxs, TxsBytes, Hashed, BlockAt, ProperTx;
    var c, t := Count(|txs|), WrittenTxs(txs);
    var b := header + c + t;
    TxsWritten(hashOf, txs);
    assert b[80..80 + |c|] == c && b[80 + |c|..|b|] == t;
    BlockExact(hashOf, b, Hashed(hashOf, txs));
  }
}
