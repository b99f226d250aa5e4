/** Buffers with a header cell in front, as allocTX/freeTX and allocPtrs/freePtrs keep them: the size picks a
    pool, or malloc when no pool fits, and on release the header alone tells where the buffer came from. */
module Buffers {
  import opened Types
  import opened Memory

  /** How sizes, headers and pools correspond. */
  datatype Tagging<!T> = Tagging(classOf: nat -> Option<nat>, header: nat -> T, classIn: T -> Option<nat>) {
    /** A header read back names the class the size was given, whose slots have room for it and the header. */
    ghost predicate Coherent(sizes: seq<nat>) {
      forall n: nat :: classIn(header(n)) == classOf(n) &&
        (classOf(n).Some? ==> classOf(n).value < |sizes| && sizes[classOf(n).value] == n + 1)
    }
  }

  /** The cell holding the header of the buffer at `p`. */
  function Base(p: Ptr): Ptr
    requires p.off >= 1
  {
    Ptr(p.blk, p.off - 1)
  }

  /** The buffer at `p` holds `data`, has its header in place, and sits in a live slot of the right class or
      fills a block of its own. */
  ghost predicate BufferOk<T>(s: Pools<T>, tags: Tagging<T>, p: Ptr, data: seq<T>) {
    && p.off >= 1 && p.blk in s.blocks && p.off + |data| <= |s.blocks[p.blk]|
    && s.blocks[p.blk][p.off - 1] == tags.header(|data|)
    && s.blocks[p.blk][p.off..p.off + |data|] == data
    && match tags.classOf(|data|)
       case Some(c) => Base(p) in s.live && Base(p) in s.slots && s.slots[Base(p)] == c
       case None => p.off == 1 && p.blk !in s.pageOf && |s.blocks[p.blk]| == |data| + 1
  }

  /** `view` is what the live buffers hold, and nothing is allocated but them. */
  ghost predicate BuffersOk<T>(s: Pools<T>, tags: Tagging<T>, view: map<Ptr, seq<T>>) {
    && s.Ok() && tags.Coherent(s.sizes)
    && (forall p :: p in view ==> BufferOk(s, tags, p, view[p]))
    && (forall q :: q in s.live ==> SlotUsed(tags, view, q))
    && (forall b :: b in s.blocks && b !in s.pageOf ==> BlockUsed(tags, view, b))
  }

  ghost predicate SlotUsed<T>(tags: Tagging<T>, view: map<Ptr, seq<T>>, q: Ptr) {
    Ptr(q.blk, q.off + 1) in view && tags.classOf(|view[Ptr(q.blk, q.off + 1)]|).Some?
  }

  ghost predicate BlockUsed<T>(tags: Tagging<T>, view: map<Ptr, seq<T>>, b: nat) {
    Ptr(b, 1) in view && tags.classOf(|view[Ptr(b, 1)]|).None?
  }

  /** Live buffers, headers included, never overlap. */
  lemma BuffersApart<T>(s: Pools<T>, tags: Tagging<T>, view: map<Ptr, seq<T>>, p: Ptr, q: Ptr)
    requires BuffersOk(s, tags, view) && p in view && q in view && p != q
    ensures BufferOk(s, tags, p, view[p]) && BufferOk(s, tags, q, view[q])
    ensures Apart(Base(p), |view[p]| + 1, Base(q), |view[q]| + 1)
  {
    hide Pools<T>.Ok;
    var b, c := Base(p), Base(q);
    assert b != c;
    if tags.classOf(|view[p]|).Some? {
      s.SlotPlace(b);
      if tags.classOf(|view[q]|).Some? {
        s.SlotsApart(b, c);
      }
    } else if tags.classOf(|view[q]|).Some? {
      s.SlotPlace(c);
    }
  }

  /** Writing apart from a buffer leaves it as it is. */
  lemma BufferKept<T>(s: Pools<T>, tags: Tagging<T>, q: Ptr, held: seq<T>, at: Ptr, data: seq<T>)
    requires BufferOk(s, tags, q, held) && at.blk in s.blocks && at.off + |data| <= |s.blocks[at.blk]|
    requires Apart(at, |data|, Base(q), |held| + 1)
    ensures BufferOk(s.WithBlock(at.blk, Overwrite(s.blocks[at.blk], at.off, data)), tags, q, held)
  {
    var old', new' := s.blocks[at.blk], Overwrite(s.blocks[at.blk], at.off, data);
    if at.blk == q.blk {
      forall i | q.off - 1 <= i < q.off + |held| ensures new'[i] == old'[i] {}
      assert new'[q.off..q.off + |held|] == old'[q.off..q.off + |held|];
    }
  }

  /** The pools and blocks in use are those of `view` still, when buffers only gained contents or company. */
  ghost predicate Extends<T>(view: map<Ptr, seq<T>>, view': map<Ptr, seq<T>>) {
    forall p :: p in view ==> p in view' && |view'[p]| == |view[p]|
  }

  lemma UsedKept<T>(tags: Tagging<T>, view: map<Ptr, seq<T>>, view': map<Ptr, seq<T>>)
    requires Extends(view, view')
    ensures forall q :: SlotUsed(tags, view, q) ==> SlotUsed(tags, view', q)
    ensures forall b :: BlockUsed(tags, view, b) ==> BlockUsed(tags, view', b)
  {
  }

  lemma FilledSelf<T>(s: Pools<T>, tags: Tagging<T>, p: Ptr, held: seq<T>, data: seq<T>)
    requires BufferOk(s, tags, p, held) && |data| == |held|
    ensures BufferOk(s.WithBlock(p.blk, Overwrite(s.blocks[p.blk], p.off, data)), tags, p, data)
  {
  }

  /** memcpy of as many cells as the buffer has. */
  lemma FilledOk<T>(s: Pools<T>, tags: Tagging<T>, view: map<Ptr, seq<T>>, p: Ptr, data: seq<T>)
    requires BuffersOk(s, tags, view) && p in view && |data| == |view[p]|
    ensures BufferOk(s, tags, p, view[p]) && p.blk != 0
    ensures BuffersOk(s.WithBlock(p.blk, Overwrite(s.blocks[p.blk], p.off, data)), tags, view[p := data])
  {
    hide Pools<T>.Ok, SlotUsed, BlockUsed;
    s.Shape();
    var s' := s.WithBlock(p.blk, Overwrite(s.blocks[p.blk], p.off, data));
    assert p.blk != 0;
    s.WithBlockOk(p.blk, s'.blocks[p.blk]);
    FilledSelf(s, tags, p, view[p], data);
    UsedKept(tags, view, view[p := data]);
    forall q | q in view && q != p ensures BufferOk(s', tags, q, view[q]) {
      BuffersApart(s, tags, view, p, q);
      BufferKept(s, tags, q, view[q], p, data);
    }
    hide BufferOk, Overwrite;
  }

  // ---------------------------------------------------------------------------------
  // Handing out a buffer

  /** What PagedHeap.Alloc promises of the new slot. */
  ghost predicate Handed<T>(s: Pools<T>, s': Pools<T>, q: Ptr, c: nat) {
    && s'.Ok() && s'.sizes == s.sizes && q !in s.live && s'.live == s.live + {q}
    && q in s'.slots && s'.slots[q] == c && Grown(s, s')
    && s.slots.Keys <= s'.slots.Keys && forall r :: r in s.slots ==> s'.slots[r] == s.slots[r]
  }

  /** The buffers already live are untouched by it, and lie elsewhere. */
  lemma HandedApart<T>(s: Pools<T>, s': Pools<T>, tags: Tagging<T>, q: Ptr, c: nat, r: Ptr, held: seq<T>)
    requires s.Ok() && Handed(s, s', q, c) && tags.Coherent(s.sizes) && BufferOk(s, tags, r, held)
    ensures BufferOk(s', tags, r, held)
    ensures c < |s'.sizes| && Apart(q, s'.sizes[c], Base(r), |held| + 1)
  {
    hide Pools<T>.Ok;
    s'.SlotPlace(q);
    if tags.classOf(|held|).Some? {
      s'.SlotsApart(q, Base(r));
    }
  }

  lemma TakenUsed<T>(s: Pools<T>, tags: Tagging<T>, view: map<Ptr, seq<T>>, view': map<Ptr, seq<T>>, p: Ptr, q: Ptr)
    requires BuffersOk(s, tags, view) && p == Ptr(q.blk, q.off + 1) && p !in view
    requires view'.Keys == view.Keys + {p} && Extends(view, view') && tags.classOf(|view'[p]|).Some?
    ensures forall r :: r in s.live || r == q ==> SlotUsed(tags, view', r)
    ensures forall b :: b in s.blocks && b !in s.pageOf ==> BlockUsed(tags, view', b)
  {
    UsedKept(tags, view, view');
  }

  /** The buffers already live, and the new one, once the header is written. */
  lemma HeaderWritten<T>(s: Pools<T>, s': Pools<T>, tags: Tagging<T>, view: map<Ptr, seq<T>>, q: Ptr, c: nat, n: nat)
    requires BuffersOk(s, tags, view) && Handed(s, s', q, c) && tags.classOf(n) == Some(c)
    ensures q.blk in s'.blocks && q.off + n + 1 <= |s'.blocks[q.blk]|
    ensures
      var block, p := Overwrite(s'.blocks[q.blk], q.off, [tags.header(n)]), Ptr(q.blk, q.off + 1);
      var t := s'.WithBlock(q.blk, block);
      && BufferOk(t, tags, p, block[q.off + 1..q.off + 1 + n])
      && forall r :: r in view ==> r != p && BufferOk(t, tags, r, view[r])
  {
    hide Pools<T>.Ok, SlotUsed, BlockUsed;
    s'.SlotPlace(q);
    var p, block := Ptr(q.blk, q.off + 1), Overwrite(s'.blocks[q.blk], q.off, [tags.header(n)]);
    var t := s'.WithBlock(q.blk, block);
    forall r | r in view ensures r != p && BufferOk(t, tags, r, view[r]) {
      HandedApart(s, s', tags, q, c, r, view[r]);
      BufferKept(s', tags, r, view[r], q, [tags.header(n)]);
    }
  }

  /** allocTX and allocPtrs when a pool fits: header written into the new slot. */
  lemma TakenSlotOk<T>(s: Pools<T>, s': Pools<T>, tags: Tagging<T>, view: map<Ptr, seq<T>>, q: Ptr, c: nat, n: nat)
    requires BuffersOk(s, tags, view) && Handed(s, s', q, c) && tags.classOf(n) == Some(c)
    ensures q.blk in s'.blocks && q.off + n + 1 <= |s'.blocks[q.blk]| && Ptr(q.blk, q.off + 1) !in view
    ensures var block := Overwrite(s'.blocks[q.blk], q.off, [tags.header(n)]);
      BuffersOk(s'.WithBlock(q.blk, block), tags, view[Ptr(q.blk, q.off + 1) := block[q.off + 1..q.off + 1 + n]])
  {
    hide Pools<T>.Ok, SlotUsed, BlockUsed, BufferOk, Overwrite;
    s'.Shape();
    HeaderWritten(s, s', tags, view, q, c, n);
    var p, block := Ptr(q.blk, q.off + 1), Overwrite(s'.blocks[q.blk], q.off, [tags.header(n)]);
    var t, view' := s'.WithBlock(q.blk, block), view[p := block[q.off + 1..q.off + 1 + n]];
    s'.WithBlockOk(q.blk, block);
    TakenUsed(s, tags, view, view', p, q);
    assert forall b :: b in t.blocks && b !in t.pageOf ==> b in s.blocks && b !in s.pageOf;
  }

  /** The same when malloc supplies a block of its own. */
  lemma TakenBlockOk<T>(s: Pools<T>, tags: Tagging<T>, view: map<Ptr, seq<T>>, b: nat, data: seq<T>, n: nat)
    requires BuffersOk(s, tags, view) && b != 0 && b !in s.blocks && |data| == n + 1
    requires tags.classOf(n).None? && data[0] == tags.header(n)
    ensures Ptr(b, 1) !in view && BuffersOk(s.WithBlock(b, data), tags, view[Ptr(b, 1) := data[1..]])
  {
    hide Pools<T>.Ok, SlotUsed, BlockUsed;
    s.Shape();
    s.WithBlockOk(b, data);
    var p, t := Ptr(b, 1), s.WithBlock(b, data);
    var view' := view[p := data[1..]];
    forall r | r in view ensures r.blk != b && BufferOk(t, tags, r, view[r]) {
      assert BufferOk(s, tags, r, view[r]);
    }
    assert BufferOk(t, tags, p, view'[p]);
    UsedKept(tags, view, view');
    assert BlockUsed(tags, view', b) by { assert view'[p] == data[1..]; BlockUsedHere(tags, view', b); }
  }

  lemma BlockUsedHere<T>(tags: Tagging<T>, view: map<Ptr, seq<T>>, b: nat)
    requires Ptr(b, 1) in view && tags.classOf(|view[Ptr(b, 1)]|).None?
    ensures BlockUsed(tags, view, b)
  {
  }

  // ---------------------------------------------------------------------------------
  // Taking it back

  /** freeTX and freePtrs of a pooled buffer. */
  lemma FreedSlotOk<T>(s: Pools<T>, tags: Tagging<T>, view: map<Ptr, seq<T>>, p: Ptr, c: nat)
    requires BuffersOk(s, tags, view) && p in view && tags.classOf(|view[p]|) == Some(c)
    ensures BufferOk(s, tags, p, view[p]) && c < |s.garbage|
    ensures BuffersOk(s.Freed(c, Base(p)), tags, view - {p})
  {
    hide Pools<T>.Ok, SlotUsed, BlockUsed;
    assert BufferOk(s, tags, p, view[p]);
    s.FreedOk(c, Base(p));
    var t, view' := s.Freed(c, Base(p)), view - {p};
    forall r | r in view' ensures BufferOk(t, tags, r, view'[r]) {
      assert BufferOk(s, tags, r, view[r]) && Base(r) != Base(p);
    }
    FreedUsed(tags, view, p);
    forall b | b in t.blocks && b !in t.pageOf ensures BlockUsed(tags, view', b) {
      assert BlockUsed(tags, view, b);
    }
  }

  lemma FreedUsed<T>(tags: Tagging<T>, view: map<Ptr, seq<T>>, p: Ptr)
    requires p in view && p.off >= 1
    ensures forall q :: SlotUsed(tags, view, q) && q != Base(p) ==> SlotUsed(tags, view - {p}, q)
    ensures tags.classOf(|view[p]|).Some? ==>
      forall b :: BlockUsed(tags, view, b) ==> BlockUsed(tags, view - {p}, b)
    ensures tags.classOf(|view[p]|).None? ==>
      && (forall q :: SlotUsed(tags, view, q) ==> SlotUsed(tags, view - {p}, q))
      && (forall b :: BlockUsed(tags, view, b) && b != p.blk ==> BlockUsed(tags, view - {p}, b))
  {
  }

  /** The same for a buffer with a block of its own. */
  lemma FreedBlockOk<T>(s: Pools<T>, tags: Tagging<T>, view: map<Ptr, seq<T>>, p: Ptr)
    requires BuffersOk(s, tags, view) && p in view && tags.classOf(|view[p]|).None?
    ensures p.blk in s.blocks && p.blk !in s.pageOf && BufferOk(s, tags, p, view[p])
    ensures BuffersOk(s.(blocks := s.blocks - {p.blk}), tags, view - {p})
  {
    hide Pools<T>.Ok, SlotUsed, BlockUsed;
    assert BufferOk(s, tags, p, view[p]);
    s.WithoutBlockOk(p.blk);
    var t, view' := s.(blocks := s.blocks - {p.blk}), view - {p};
    forall r | r in view' ensures BufferOk(t, tags, r, view'[r]) {
      assert BufferOk(s, tags, r, view[r]);
      if r.blk == p.blk {
        BuffersApart(s, tags, view, p, r);
        assert false;
      }
    }
    FreedUsed(tags, view, p);
    forall b | b in t.blocks && b !in t.pageOf ensures BlockUsed(tags, view', b) {
      assert BlockUsed(tags, view, b);
    }
    forall q | q in t.live ensures SlotUsed(tags, view', q) {
      assert SlotUsed(tags, view, q);
    }
  }

  lemma OneCell<T>(block: seq<T>, at: nat, held: seq<T>, i: nat, v: T)
    requires at + |held| <= |block| && block[at..at + |held|] == held && i < |held|
    ensures Overwrite(block, at + i, [v]) == Overwrite(block, at, held[i := v])
  {
    var a, b := Overwrite(block, at + i, [v]), Overwrite(block, at, held[i := v]);
    forall k | 0 <= k < |block| ensures a[k] == b[k] {
      if at <= k < at + |held| {
        assert b[k] == b[at..at + |held|][k - at] && block[k] == held[k - at];
        if k == at + i { assert a[at + i..at + i + 1] == [v]; }
      }
    }
  }

  // ---------------------------------------------------------------------------------
  // The store

  class BufferStore<T> {
    const heap: PagedHeap<T>
    const tags: Tagging<T>
    var count: int                      // buffers handed out and not yet taken back
    ghost var view: map<Ptr, seq<T>>    // what each of them holds

    ghost predicate Valid()
      reads this, heap
    {
      BuffersOk(heap.State(), tags, view) && count == |view|
    }

    constructor (sizes: seq<nat>, pageSlots: seq<nat>, zero: T, tags: Tagging<T>)
      requires |sizes| == |pageSlots| && tags.Coherent(sizes)
      requires forall c :: 0 <= c < |sizes| ==> sizes[c] > 0 && pageSlots[c] > 0
      ensures Valid() && fresh(heap) && view == map[] && this.tags == tags
    {
      heap := new PagedHeap(sizes, pageSlots, zero);
      this.tags, count, view := tags, 0, map[];
    }

    /** A buffer of `n` cells with its header set; `c` is the class looked up for `n`. */
    method Take(n: nat, c: Option<nat>) returns (p: Ptr)
      requires Valid() && c == tags.classOf(n)
      modifies this, heap
      ensures Valid() && p !in old(view) && p in view && |view[p]| == n && view == old(view)[p := view[p]]
    {
      hide BuffersOk, Pools<T>.Ok;
      count := count + 1;
      match c {
        case Some(k) => p := TakeSlot(n, k);
        case None => p := TakeBlock(n);
      }
    }

    method TakeSlot(n: nat, c: nat) returns (p: Ptr)
      requires BuffersOk(heap.State(), tags, view) && tags.classOf(n) == Some(c)
      modifies this`view, heap
      ensures BuffersOk(heap.State(), tags, view)
      ensures p !in old(view) && p in view && |view[p]| == n && view == old(view)[p := view[p]]
    {
      hide Pools<T>.Ok, BufferOk, SlotUsed, BlockUsed;
      ghost var before := heap.State();
      var q := heap.Alloc(c);
      TakenSlotOk(before, heap.State(), tags, view, q, c, n);
      heap.Copy(q, [tags.header(n)]);
      p := Ptr(q.blk, q.off + 1);
      view := view[p := heap.blocks[q.blk][q.off + 1..q.off + 1 + n]];
    }

    method TakeBlock(n: nat) returns (p: Ptr)
      requires BuffersOk(heap.State(), tags, view) && tags.classOf(n).None?
      modifies this`view, heap
      ensures BuffersOk(heap.State(), tags, view)
      ensures p !in old(view) && p in view && |view[p]| == n && view == old(view)[p := view[p]]
    {
      hide Pools<T>.Ok, BufferOk, SlotUsed, BlockUsed;
      ghost var before := heap.State();
      var b := heap.Malloc(n + 1);
      heap.Copy(Ptr(b, 0), [tags.header(n)]);
      TakenBlockOk(before, tags, view, b, heap.blocks[b], n);
      assert heap.blocks == before.blocks[b := heap.blocks[b]];
      p := Ptr(b, 1);
      view := view[p := heap.blocks[b][1..]];
    }

    /** memcpy into a buffer, filling it. */
    method Fill(p: Ptr, data: seq<T>)
      requires Valid() && p in view && |data| == |view[p]|
      modifies this`view, heap
      ensures Valid() && view == old(view)[p := data]
    {
      hide Pools<T>.Ok, BufferOk, SlotUsed, BlockUsed;
      FilledOk(heap.State(), tags, view, p, data);
      assert BufferOk(heap.State(), tags, p, view[p]);
      InBlock(p);
      heap.Copy(p, data);
      view := view[p := data];
    }

    /** Assignment to one cell. */
    method Set(p: Ptr, i: nat, v: T)
      requires Valid() && p in view && i < |view[p]|
      modifies this`view, heap
      ensures Valid() && view == old(view)[p := old(view[p])[i := v]]
    {
      hide Pools<T>.Ok, BufferOk, SlotUsed, BlockUsed;
      ghost var data := view[p][i := v];
      FilledOk(heap.State(), tags, view, p, data);
      InBlock(p);
      ghost var block := heap.blocks[p.blk];
      assert Overwrite(block, p.off + i, [v]) == Overwrite(block, p.off, data) by {
        assert block[p.off..p.off + |data|] == view[p];
        OneCell(block, p.off, view[p], i, v);
      }
      heap.Copy(Ptr(p.blk, p.off + i), [v]);
      view := view[p := data];
    }

    /** Where a buffer lies, its header in front. */
    lemma InBlock(p: Ptr)
      requires Valid() && p in view
      ensures p.off >= 1 && p.blk in heap.blocks && p.off + |view[p]| <= |heap.blocks[p.blk]|
      ensures heap.blocks[p.blk][p.off - 1] == tags.header(|view[p]|)
      ensures heap.blocks[p.blk][p.off..p.off + |view[p]|] == view[p]
      ensures tags.classIn(heap.blocks[p.blk][p.off - 1]) == tags.classOf(|view[p]|)
    {
      hide Pools<T>.Ok, SlotUsed, BlockUsed;
      assert BufferOk(heap.State(), tags, p, view[p]);
    }

    /** What a C pointer into the buffer sees: its contents, and then whatever follows in memory. */
    method Peek(p: Ptr) returns (s: seq<T>)
      requires Valid() && p in view
      ensures |view[p]| <= |s| && s[..|view[p]|] == view[p]
    {
      InBlock(p);
      s := heap.blocks[p.blk][p.off..];
    }

    /** Takes a buffer back; only its header tells where it goes. */
    method Return(p: Ptr)
      requires Valid() && p in view
      modifies this, heap
      ensures Valid() && view == old(view) - {p}
    {
      hide Pools<T>.Ok, BufferOk, SlotUsed, BlockUsed;
      InBlock(p);
      var h := heap.blocks[p.blk][p.off - 1];
      count := count - 1;
      match tags.classIn(h) {
        case Some(c) =>
          FreedSlotOk(heap.State(), tags, view, p, c);
          SlotLive(p, c);
          heap.Free(c, Base(p));
        case None =>
          FreedBlockOk(heap.State(), tags, view, p);
          heap.Release(p.blk);
      }
      view := view - {p};
    }

    lemma SlotLive(p: Ptr, c: nat)
      requires BuffersOk(heap.State(), tags, view) && p in view && tags.classOf(|view[p]|) == Some(c)
      ensures p.off >= 1 && Base(p) in heap.live && Base(p) in heap.slots && heap.slots[Base(p)] == c
    {
      assert BufferOk(heap.State(), tags, p, view[p]);
    }
  }
}
