/** The byte format of transactions, as the parser reads it: little-endian integers, variable-length
    counts, scripts. Each function gives what is read at `p` and where reading ends, or None when the
    bytes run out. */
module TxFormat {
  import opened Types

  /** An output, and the very bytes it was read from. */
  datatype Output = Output(value: nat, script: seq<Byte>, raw: seq<Byte>)
  datatype Input = Input(upHash: Hash, upIndex: nat, script: seq<Byte>)
  datatype Tx = Tx(inputs: seq<Input>, outputs: seq<Output>)

  /** Little-endian value of `n` bytes at `p`. */
  function LoadLE(s: seq<Byte>, p: nat, n: nat): nat
    requires p + n <= |s|
    decreases n
  {
    if n == 0 then 0 else s[p] + 256 * LoadLE(s, p + 1, n - 1)
  }

  function Fixed(s: seq<Byte>, p: nat, n: nat): Option<(nat, nat)> {
    if p + n <= |s| then Some((LoadLE(s, p, n), p + n)) else None
  }

  function VarInt(s: seq<Byte>, p: nat): Option<(nat, nat)> {
    if p >= |s| then None
    else if s[p] < 0xFD then Some((s[p], p + 1))
    else if s[p] == 0xFD then Fixed(s, p + 1, 2)
    else if s[p] == 0xFE then Fixed(s, p + 1, 4)
    else Fixed(s, p + 1, 8)
  }

  function Script(s: seq<Byte>, p: nat): Option<(seq<Byte>, nat)> {
    match VarInt(s, p)
    case None => None
    case Some((n, q)) => if q + n <= |s| then Some((s[q..q + n], q + n)) else None
  }

  function OutputAt(s: seq<Byte>, p: nat): Option<(Output, nat)> {
    match Fixed(s, p, 8)
    case None => None
    case Some((value, q)) =>
      match Script(s, q)
      case None => None
      case Some((script, e)) => Some((Output(value, script, s[p..e]), e))
  }

  function InputAt(s: seq<Byte>, p: nat): Option<(Input, nat)> {
    if p + 36 > |s| then None
    else
      match Script(s, p + 36)
      case None => None
      case Some((script, e)) =>
        if e + 4 > |s| then None else Some((Input(s[p..p + 32], LoadLE(s, p + 32, 4), script), e + 4))
  }

  function InputsAt(s: seq<Byte>, p: nat, n: nat): Option<(seq<Input>, nat)>
    decreases n
  {
    if n == 0 then Some(([], p))
    else
      match InputsAt(s, p, n - 1)
      case None => None
      case Some((ins, q)) =>
        match InputAt(s, q)
        case None => None
        case Some((i, e)) => Some((ins + [i], e))
  }

  function OutputsAt(s: seq<Byte>, p: nat, n: nat): Option<(seq<Output>, nat)>
    decreases n
  {
    if n == 0 then Some(([], p))
    else
      match OutputsAt(s, p, n - 1)
      case None => None
      case Some((os, q)) =>
        match OutputAt(s, q)
        case None => None
        case Some((o, e)) => Some((os + [o], e))
  }

  function InputListAt(s: seq<Byte>, p: nat): Option<(seq<Input>, nat)> {
    match VarInt(s, p)
    case None => None
    case Some((n, q)) => InputsAt(s, q, n)
  }

  function OutputListAt(s: seq<Byte>, p: nat): Option<(seq<Output>, nat)> {
    match VarInt(s, p)
    case None => None
    case Some((n, q)) => OutputsAt(s, q, n)
  }

  function TxAt(s: seq<Byte>, p: nat): Option<(Tx, nat)> {
    match InputListAt(s, p + 4)
    case None => None
    case Some((ins, q)) =>
      match OutputListAt(s, q)
      case None => None
      case Some((outs, q)) => if q + 4 <= |s| then Some((Tx(ins, outs), q + 4)) else None
  }

  // ---------------------------------------------------------------------------------
  // Reading moves forward, stays in bounds, and sees nothing but the bytes it consumes

  /** A shorter list than the one that parses parses too. */
  lemma {:induction false} InputsPrefix(s: seq<Byte>, p: nat, k: nat, n: nat)
    requires k <= n && InputsAt(s, p, n).Some?
    ensures |InputsAt(s, p, n).value.0| == n
    ensures InputsAt(s, p, k).Some? && InputsAt(s, p, k).value.0 == InputsAt(s, p, n).value.0[..k]
    decreases n
  {
    hide InputAt;
    if k < n {
      InputsPrefix(s, p, k, n - 1);
    } else if n > 0 {
      InputsPrefix(s, p, n - 1, n - 1);
    }
  }

  /** Reading element `k` after the first `k`. */
  lemma InputsStep(s: seq<Byte>, p: nat, k: nat, n: nat)
    requires k < n && InputsAt(s, p, n).Some? && InputsAt(s, p, k).Some?
    ensures |InputsAt(s, p, n).value.0| == n
    ensures InputAt(s, InputsAt(s, p, k).value.1).Some?
    ensures InputAt(s, InputsAt(s, p, k).value.1).value.0 == InputsAt(s, p, n).value.0[k]
    ensures InputsAt(s, p, k + 1) ==
      Some((InputsAt(s, p, n).value.0[..k + 1], InputAt(s, InputsAt(s, p, k).value.1).value.1))
  {
    InputsPrefix(s, p, k + 1, n);
    assert InputsAt(s, p, k + 1).value.0[k] == InputsAt(s, p, n).value.0[k];
  }

  lemma {:induction false} OutputsPrefix(s: seq<Byte>, p: nat, k: nat, n: nat)
    requires k <= n && OutputsAt(s, p, n).Some?
    ensures |OutputsAt(s, p, n).value.0| == n
    ensures OutputsAt(s, p, k).Some? && OutputsAt(s, p, k).value.0 == OutputsAt(s, p, n).value.0[..k]
    decreases n
  {
    hide OutputAt;
    if k < n {
      OutputsPrefix(s, p, k, n - 1);
    } else if n > 0 {
      OutputsPrefix(s, p, n - 1, n - 1);
    }
  }

  /** Reading element `k` after the first `k`. */
  lemma OutputsStep(s: seq<Byte>, p: nat, k: nat, n: nat)
    requires k < n && OutputsAt(s, p, n).Some? && OutputsAt(s, p, k).Some?
    ensures |OutputsAt(s, p, n).value.0| == n
    ensures OutputAt(s, OutputsAt(s, p, k).value.1).Some?
    ensures OutputAt(s, OutputsAt(s, p, k).value.1).value.0 == OutputsAt(s, p, n).value.0[k]
    ensures OutputsAt(s, p, k + 1) ==
      Some((OutputsAt(s, p, n).value.0[..k + 1], OutputAt(s, OutputsAt(s, p, k).value.1).value.1))
  {
    OutputsPrefix(s, p, k + 1, n);
    assert OutputsAt(s, p, k + 1).value.0[k] == OutputsAt(s, p, n).value.0[k];
  }

  lemma OutputBounds(s: seq<Byte>, p: nat)
    requires OutputAt(s, p).Some?
    ensures p + 9 <= OutputAt(s, p).value.1 <= |s|
  {
  }

  lemma InputBounds(s: seq<Byte>, p: nat)
    requires InputAt(s, p).Some?
    ensures p + 41 <= InputAt(s, p).value.1 <= |s|
  {
  }

  /** Each output takes at least nine bytes, so a list that fits in the buffer is no longer than it. */
  lemma {:induction false} OutputsBounds(s: seq<Byte>, p: nat, n: nat)
    requires p <= |s| && OutputsAt(s, p, n).Some?
    ensures p + 9 * n <= OutputsAt(s, p, n).value.1 <= |s|
    decreases n
  {
    if n == 0 {
    } else {
      OutputsBounds(s, p, n - 1);
      OutputBounds(s, OutputsAt(s, p, n - 1).value.1);
    }
  }

  lemma {:induction false} InputsBounds(s: seq<Byte>, p: nat, n: nat)
    requires p <= |s| && InputsAt(s, p, n).Some?
    ensures p + 41 * n <= InputsAt(s, p, n).value.1 <= |s|
    decreases n
  {
    if n == 0 {
    } else {
      InputsBounds(s, p, n - 1);
      InputBounds(s, InputsAt(s, p, n - 1).value.1);
    }
  }

  lemma VarIntAhead(s: seq<Byte>, p: nat)
    requires VarInt(s, p).Some?
    ensures p < VarInt(s, p).value.1 <= |s|
  {
  }

  lemma InputListBounds(s: seq<Byte>, p: nat)
    requires InputListAt(s, p).Some?
    ensures p < InputListAt(s, p).value.1 <= |s|
  {
    hide VarInt, InputsAt;
    VarIntAhead(s, p);
    var (n, q) := VarInt(s, p).value;
    InputsBounds(s, q, n);
  }

  lemma OutputListBounds(s: seq<Byte>, p: nat)
    requires OutputListAt(s, p).Some?
    ensures p < OutputListAt(s, p).value.1 <= |s|
  {
    hide VarInt, OutputsAt;
    VarIntAhead(s, p);
    var (n, q) := VarInt(s, p).value;
    OutputsBounds(s, q, n);
  }

  lemma TxBounds(s: seq<Byte>, p: nat)
    requires TxAt(s, p).Some?
    ensures p + 10 <= TxAt(s, p).value.1 <= |s|
  {
    hide InputListAt, OutputListAt;
    InputListBounds(s, p + 4);
    OutputListBounds(s, InputListAt(s, p + 4).value.1);
  }

  /** `t` holds at `q` the bytes `s` holds from `p` up to `e`. */
  ghost predicate SameBytes(s: seq<Byte>, p: nat, e: nat, t: seq<Byte>, q: nat) {
    && p <= e <= |s| && q + (e - p) <= |t|
    && forall i {:trigger s[i]} :: p <= i < e ==> t[q + (i - p)] == s[i]
  }

  lemma {:induction false} LoadLESame(s: seq<Byte>, p: nat, t: seq<Byte>, q: nat, n: nat)
    requires SameBytes(s, p, p + n, t, q)
    ensures LoadLE(t, q, n) == LoadLE(s, p, n)
    decreases n
  {
    if n == 0 {
    } else {
      assert t[q] == s[p];
      LoadLESame(s, p + 1, t, q + 1, n - 1);
    }
  }

  lemma VarIntSame(s: seq<Byte>, p: nat, t: seq<Byte>, q: nat)
    requires VarInt(s, p).Some? && SameBytes(s, p, VarInt(s, p).value.1, t, q)
    ensures VarInt(t, q) == Some((VarInt(s, p).value.0, q + (VarInt(s, p).value.1 - p)))
  {
    assert t[q] == s[p];
    if s[p] == 0xFD {
      LoadLESame(s, p + 1, t, q + 1, 2);
    } else if s[p] == 0xFE {
      LoadLESame(s, p + 1, t, q + 1, 4);
    } else if s[p] == 0xFF {
      LoadLESame(s, p + 1, t, q + 1, 8);
    }
  }

  lemma ScriptSame(s: seq<Byte>, p: nat, t: seq<Byte>, q: nat)
    requires Script(s, p).Some? && SameBytes(s, p, Script(s, p).value.1, t, q)
    ensures Script(t, q) == Some((Script(s, p).value.0, q + (Script(s, p).value.1 - p)))
  {
    hide VarInt;
    var (n, c) := VarInt(s, p).value;
    VarIntAhead(s, p);
    VarIntSame(s, p, t, q);
    var d := q + (c - p);
    forall i {:trigger t[d + i]} | 0 <= i < n ensures t[d + i] == s[c + i] {
      assert t[q + (c + i - p)] == s[c + i];
    }
    assert t[d..d + n] == s[c..c + n];
  }

  /** Copied bytes read back as the same output, whatever follows the copy. */
  lemma OutputSame(s: seq<Byte>, p: nat, t: seq<Byte>, q: nat)
    requires OutputAt(s, p).Some? && SameBytes(s, p, OutputAt(s, p).value.1, t, q)
    ensures OutputAt(t, q) == Some((OutputAt(s, p).value.0, q + (OutputAt(s, p).value.1 - p)))
  {
    hide VarInt, Script, LoadLE;
    OutputBounds(s, p);
    LoadLESame(s, p, t, q, 8);
    ScriptSame(s, p + 8, t, q + 8);
    var n := OutputAt(s, p).value.1 - p;
    forall i {:trigger t[q + i]} | 0 <= i < n ensures t[q + i] == s[p + i] {}
    assert t[q..q + n] == s[p..p + n];
  }

  lemma SameWithin(s: seq<Byte>, p: nat, e: nat, t: seq<Byte>, q: nat, a: nat, b: nat)
    requires SameBytes(s, p, e, t, q) && p <= a <= b <= e
    ensures SameBytes(s, a, b, t, q + (a - p))
  {
    forall i {:trigger s[i]} | a <= i < b ensures t[q + (a - p) + (i - a)] == s[i] {
      assert t[q + (i - p)] == s[i];
    }
  }

  lemma SliceSame(s: seq<Byte>, p: nat, e: nat, t: seq<Byte>, q: nat)
    requires SameBytes(s, p, e, t, q)
    ensures t[q..q + (e - p)] == s[p..e]
  {
    forall i {:trigger t[q + i]} | 0 <= i < e - p ensures t[q + i] == s[p + i] {
      assert t[q + (p + i - p)] == s[p + i];
    }
  }

  lemma InputSame(s: seq<Byte>, p: nat, t: seq<Byte>, q: nat)
    requires InputAt(s, p).Some? && SameBytes(s, p, InputAt(s, p).value.1, t, q)
    ensures InputAt(t, q) == Some((InputAt(s, p).value.0, q + (InputAt(s, p).value.1 - p)))
  {
    hide VarInt, Script, LoadLE, SameBytes;
    InputBounds(s, p);
    ScriptAhead(s, p + 36);
    var e := InputAt(s, p).value.1;
    SameFits(s, p, e, t, q);
    SameWithin(s, p, e, t, q, p, p + 32);
    SliceSame(s, p, p + 32, t, q);
    SameWithin(s, p, e, t, q, p + 32, p + 36);
    LoadLESame(s, p + 32, t, q + 32, 4);
    SameWithin(s, p, e, t, q, p + 36, e - 4);
    ScriptSame(s, p + 36, t, q + 36);
  }

  lemma ScriptAhead(s: seq<Byte>, p: nat)
    requires Script(s, p).Some?
    ensures p < Script(s, p).value.1 <= |s|
  {
    hide VarInt;
    VarIntAhead(s, p);
  }

  lemma SameFits(s: seq<Byte>, p: nat, e: nat, t: seq<Byte>, q: nat)
    requires SameBytes(s, p, e, t, q)
    ensures p <= e <= |s| && q + (e - p) <= |t|
  {
  }

  lemma {:induction false} InputsSame(s: seq<Byte>, p: nat, n: nat, t: seq<Byte>, q: nat)
    requires p <= |s| && InputsAt(s, p, n).Some? && SameBytes(s, p, InputsAt(s, p, n).value.1, t, q)
    ensures InputsAt(t, q, n) == Some((InputsAt(s, p, n).value.0, q + (InputsAt(s, p, n).value.1 - p)))
    decreases n
  {
    hide InputAt, SameBytes;
    if n == 0 {
    } else {
      var m, e := InputsAt(s, p, n - 1).value.1, InputsAt(s, p, n).value.1;
      InputsBounds(s, p, n - 1);
      InputBounds(s, m);
      SameWithin(s, p, e, t, q, p, m);
      InputsSame(s, p, n - 1, t, q);
      SameWithin(s, p, e, t, q, m, e);
      InputSame(s, m, t, q + (m - p));
    }
  }

  lemma {:induction false} OutputsSame(s: seq<Byte>, p: nat, n: nat, t: seq<Byte>, q: nat)
    requires p <= |s| && OutputsAt(s, p, n).Some? && SameBytes(s, p, OutputsAt(s, p, n).value.1, t, q)
    ensures OutputsAt(t, q, n) == Some((OutputsAt(s, p, n).value.0, q + (OutputsAt(s, p, n).value.1 - p)))
    decreases n
  {
    hide OutputAt, SameBytes;
    if n == 0 {
    } else {
      var m, e := OutputsAt(s, p, n - 1).value.1, OutputsAt(s, p, n).value.1;
      OutputsBounds(s, p, n - 1);
      OutputBounds(s, m);
      SameWithin(s, p, e, t, q, p, m);
      OutputsSame(s, p, n - 1, t, q);
      SameWithin(s, p, e, t, q, m, e);
      OutputSame(s, m, t, q + (m - p));
    }
  }

  lemma InputListSame(s: seq<Byte>, p: nat, t: seq<Byte>, q: nat)
    requires InputListAt(s, p).Some? && SameBytes(s, p, InputListAt(s, p).value.1, t, q)
    ensures InputListAt(t, q) == Some((InputListAt(s, p).value.0, q + (InputListAt(s, p).value.1 - p)))
  {
    hide VarInt, InputsAt, SameBytes;
    VarIntAhead(s, p);
    var (n, a) := VarInt(s, p).value;
    var e := InputListAt(s, p).value.1;
    InputsBounds(s, a, n);
    SameWithin(s, p, e, t, q, p, a);
    VarIntSame(s, p, t, q);
    SameWithin(s, p, e, t, q, a, e);
    InputsSame(s, a, n, t, q + (a - p));
  }

  lemma OutputListSame(s: seq<Byte>, p: nat, t: seq<Byte>, q: nat)
    requires OutputListAt(s, p).Some? && SameBytes(s, p, OutputListAt(s, p).value.1, t, q)
    ensures OutputListAt(t, q) == Some((OutputListAt(s, p).value.0, q + (OutputListAt(s, p).value.1 - p)))
  {
    hide VarInt, OutputsAt, SameBytes;
    VarIntAhead(s, p);
    var (n, a) := VarInt(s, p).value;
    var e := OutputListAt(s, p).value.1;
    OutputsBounds(s, a, n);
    SameWithin(s, p, e, t, q, p, a);
    VarIntSame(s, p, t, q);
    SameWithin(s, p, e, t, q, a, e);
    OutputsSame(s, a, n, t, q + (a - p));
  }

  /** A transaction is a function of the bytes that are hashed, wherever they stand. */
  lemma TxSame(s: seq<Byte>, p: nat, t: seq<Byte>, q: nat)
    requires TxAt(s, p).Some? && SameBytes(s, p, TxAt(s, p).value.1, t, q)
    ensures TxAt(t, q) == Some((TxAt(s, p).value.0, q + (TxAt(s, p).value.1 - p)))
  {
    hide InputListAt, OutputListAt, SameBytes;
    var e := TxAt(s, p).value.1;
    var a := InputListAt(s, p + 4).value.1;
    InputListBounds(s, p + 4);
    OutputListBounds(s, a);
    SameFits(s, p, e, t, q);
    SameWithin(s, p, e, t, q, p + 4, a);
    InputListSame(s, p + 4, t, q + 4);
    var b := OutputListAt(s, a).value.1;
    SameWithin(s, p, e, t, q, a, b);
    OutputListSame(s, a, t, q + (a - p));
  }
}
