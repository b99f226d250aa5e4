/** Messages cut into blocks: what a buffered hash has compressed and what it still holds. */
module Blocks {
  import opened Words

  function Zeros(n: nat): (z: seq<Octet>)
    ensures |z| == n && forall i :: 0 <= i < n ==> z[i] == 0
  {
    if n == 0 then [] else Zeros(n - 1) + [0]
  }

  /**
   * The compression folded over the whole blocks of `n` octets of a message; a shorter end
   * is not used.
   */
  function Absorb<S>(n: nat, compress: (S, seq<Octet>) -> S, s: S, m: seq<Octet>): S
    requires n > 0
  {
    if |m| < n then s else Absorb(n, compress, compress(s, m[..n]), m[n..])
  }

  /** The end of a message that fills no block. */
  function Rest(n: nat, m: seq<Octet>): (r: seq<Octet>)
    requires n > 0
    ensures |r| < n
  {
    if |m| < n then m else Rest(n, m[n..])
  }

  /** Data that completes the last block. */
  lemma {:induction false} AbsorbFill<S>(n: nat, compress: (S, seq<Octet>) -> S, s: S, m: seq<Octet>, data: seq<Octet>)
    requires n > 0 && |Rest(n, m)| + |data| == n
    ensures Rest(n, m + data) == []
    ensures Absorb(n, compress, s, m + data) == compress(Absorb(n, compress, s, m), Rest(n, m) + data)
    decreases |m|
  {
    if |m| < n {
      assert (m + data)[..n] == m + data && (m + data)[n..] == [];
    } else {
      assert (m + data)[..n] == m[..n] && (m + data)[n..] == m[n..] + data;
      AbsorbFill(n, compress, compress(s, m[..n]), m[n..], data);
    }
  }

  /** Data too short to complete it only extends the rest. */
  lemma {:induction false} AbsorbShort<S>(n: nat, compress: (S, seq<Octet>) -> S, s: S, m: seq<Octet>, data: seq<Octet>)
    requires n > 0 && |Rest(n, m)| + |data| < n
    ensures Rest(n, m + data) == Rest(n, m) + data
    ensures Absorb(n, compress, s, m + data) == Absorb(n, compress, s, m)
    decreases |m|
  {
    if |m| < n {
    } else {
      assert (m + data)[..n] == m[..n] && (m + data)[n..] == m[n..] + data;
      AbsorbShort(n, compress, compress(s, m[..n]), m[n..], data);
    }
  }

  lemma {:induction false} Rest64Length(m: seq<Octet>)
    ensures |Rest(64, m)| == |m| % 64
    decreases |m|
  {
    if |m| < 64 {
    } else {
      Rest64Length(m[64..]);
    }
  }

  /** The message handed over in pieces. */
  function Joined(pieces: seq<seq<Octet>>): seq<Octet> {
    if |pieces| == 0 then [] else Joined(pieces[..|pieces| - 1]) + pieces[|pieces| - 1]
  }

  /** The rest is the end of the message; what comes before it is whole blocks. */
  lemma {:induction false} RestIsEnd(n: nat, m: seq<Octet>)
    requires n > 0
    ensures |Rest(n, m)| <= |m| && m[|m| - |Rest(n, m)|..] == Rest(n, m)
    decreases |m|
  {
    if |m| < n {
    } else {
      RestIsEnd(n, m[n..]);
    }
  }
}
