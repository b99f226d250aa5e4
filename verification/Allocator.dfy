/** The two buffer families of the unspent-output index: raw output bytes and pointer arrays. */
module Allocator {
  import opened Types
  import opened Memory
  import opened Buffers

  // ---------------------------------------------------------------------------------
  // Raw output bytes: allocTX, freeTX

  /** Sizes that have a pool of their own; the header byte is the index here, or 14 for "other". */
  const TX_LENGTHS: seq<nat> := [10, 14, 15, 32, 34, 42, 44, 46, 51, 76, 80, 114, 144, 210]
  const TX_SIZES: seq<nat> := [11, 15, 16, 33, 35, 43, 45, 47, 52, 77, 81, 115, 145, 211]
  const TX_PAGES: seq<nat> := [30, 30, 200, 1000, 2000, 200, 1000, 200, 100, 2000, 200, 30, 300, 1000]
  const LENGTH_OTHER: Byte := 14

  function TxClass(n: nat): (c: Option<nat>)
    ensures c.Some? ==> c.value < 14 && TX_LENGTHS[c.value] == n
    ensures c.None? ==> n !in TX_LENGTHS
  {
    TxClassFrom(n, 0)
  }

  function TxClassFrom(n: nat, i: nat): (c: Option<nat>)
    requires i <= 14
    ensures c.Some? ==> i <= c.value < 14 && TX_LENGTHS[c.value] == n
    ensures c.None? ==> n !in TX_LENGTHS[i..]
    decreases 14 - i
  {
    if i == 14 then None else if TX_LENGTHS[i] == n then Some(i) else TxClassFrom(n, i + 1)
  }

  function TxHeader(n: nat): Byte {
    match TxClass(n) case Some(c) => c case None => LENGTH_OTHER
  }

  function TxClassIn(h: Byte): Option<nat> {
    if h < LENGTH_OTHER then Some(h) else None
  }

  const TX_TAGS: Tagging<Byte> := Tagging(TxClass, TxHeader, TxClassIn)

  lemma TxTagsCoherent()
    ensures TX_TAGS.Coherent(TX_SIZES)
  {
    forall n: nat | TxClass(n).Some? ensures TX_SIZES[TxClass(n).value] == n + 1 {
      var c := TxClass(n).value;
    }
  }

  class TxAllocator {
    const store: BufferStore<Byte>

    ghost predicate Valid()
      reads store, store.heap
    {
      store.Valid() && store.tags == TX_TAGS
    }

    constructor ()
      ensures Valid() && fresh(store) && fresh(store.heap) && store.view == map[]
    {
      TxTagsCoherent();
      store := new BufferStore(TX_SIZES, TX_PAGES, 0, TX_TAGS);
    }

    method AllocTX(size: nat) returns (p: Ptr)
      requires Valid()
      modifies store, store.heap
      ensures Valid() && p !in old(store.view) && p in store.view && |store.view[p]| == size
      ensures store.view == old(store.view)[p := store.view[p]]
    {
      var i := 0;
      while i < |TX_LENGTHS| && TX_LENGTHS[i] != size
        invariant 0 <= i <= 14 && TxClass(size) == TxClassFrom(size, i)
      {
        i := i + 1;
      }
      p := store.Take(size, if i < |TX_LENGTHS| then Some(i) else None);
    }
  }

  // ---------------------------------------------------------------------------------
  // Pointer arrays: allocPtrs, freePtrs, countNonNullPtrs

  /** A pointer-sized cell: an address, null, or a length cast to a pointer. */
  datatype Cell = Null | Address(p: Ptr) | Length(n: nat)

  const PTR_SIZES: seq<nat> := [2, 3, 4, 5, 6, 7, 8, 9, 10, 11, 12, 13]
  const PTR_PAGES: seq<nat> := [1000, 1000, 1000, 1000, 1000, 1000, 1000, 1000, 1000, 1000, 1000, 1000]

  /** Arrays of up to 12 pointers are pooled. There is no array of no pointers. */
  function PtrClass(n: nat): Option<nat> {
    if 0 < n <= 12 then Some(n - 1) else None
  }

  function PtrHeader(n: nat): Cell { Length(n) }

  function PtrClassIn(h: Cell): Option<nat> {
    if h.Length? then PtrClass(h.n) else None
  }

  const PTR_TAGS: Tagging<Cell> := Tagging(PtrClass, PtrHeader, PtrClassIn)

  lemma PtrTagsCoherent()
    ensures PTR_TAGS.Coherent(PTR_SIZES)
  {
  }

  class PtrAllocator {
    const store: BufferStore<Cell>

    ghost predicate Valid()
      reads store, store.heap
    {
      store.Valid() && store.tags == PTR_TAGS
    }

    constructor ()
      ensures Valid() && fresh(store) && fresh(store.heap) && store.view == map[]
    {
      PtrTagsCoherent();
      store := new BufferStore(PTR_SIZES, PTR_PAGES, Null, PTR_TAGS);
    }

    /** The source indexes its table of pools with `n - 1`, so `n` may not be zero. */
    method AllocPtrs(n: nat) returns (p: Ptr)
      requires Valid() && n > 0
      modifies store, store.heap
      ensures Valid() && p !in old(store.view) && p in store.view && |store.view[p]| == n
      ensures store.view == old(store.view)[p := store.view[p]]
    {
      p := store.Take(n, if n <= 12 then Some(n - 1) else None);
    }

    method Store(p: Ptr, i: nat, v: Cell)
      requires Valid() && p in store.view && i < |store.view[p]|
      modifies store`view, store.heap
      ensures Valid() && store.view == old(store.view)[p := old(store.view[p])[i := v]]
    {
      store.Set(p, i, v);
    }

    method Load(p: Ptr, i: nat) returns (v: Cell)
      requires Valid() && p in store.view && i < |store.view[p]|
      ensures v == store.view[p][i]
    {
      var s := store.Peek(p);
      v := s[i];
      assert v == s[..|store.view[p]|][i];
    }

    /** The header in front of the array. */
    method LengthOf(p: Ptr) returns (n: nat)
      requires Valid() && p in store.view
      ensures n == |store.view[p]|
    {
      hide BuffersOk;
      store.InBlock(p);
      assert store.heap.blocks[p.blk][p.off - 1] == PtrHeader(|store.view[p]|);
      n := store.heap.blocks[p.blk][p.off - 1].n;
    }

    /** Counts up to the length in the header. */
    method CountNonNullPtrs(p: Ptr) returns (count: nat)
      requires Valid() && p in store.view
      ensures count == NonNull(store.view[p])
    {
      hide BuffersOk;
      var length := LengthOf(p);
      count := 0;
      for i := 0 to length
        invariant count == NonNull(store.view[p][..i])
      {
        var v := Load(p, i);
        assert store.view[p][..i + 1] == store.view[p][..i] + [v];
        if v != Null {
          count := count + 1;
        }
      }
      assert store.view[p][..length] == store.view[p];
    }
  }

  /** How many cells are not null. */
  function NonNull(s: seq<Cell>): nat {
    if s == [] then 0 else NonNull(s[..|s| - 1]) + if s[|s| - 1] == Null then 0 else 1
  }

  lemma {:induction false} NonNullZero(s: seq<Cell>)
    ensures NonNull(s) == 0 <==> forall i :: 0 <= i < |s| ==> s[i] == Null
  {
    if s == [] {
    } else {
      NonNullZero(s[..|s| - 1]);
      assert s == s[..|s| - 1] + [s[|s| - 1]];
    }
  }
}
