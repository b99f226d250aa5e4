/** The size-classed page allocator and the tagged buffers built on it. Pointers are a block handed out by
    malloc and an offset into it, so that pointer arithmetic stays inside one block as the C standard asks. */
module Memory {
  datatype Ptr = Ptr(blk: nat, off: nat)

  /** Sum of the lengths of the free lists. */
  ghost function TotalLength<X>(lists: seq<seq<X>>): nat {
    if lists == [] then 0 else TotalLength(lists[..|lists| - 1]) + |lists[|lists| - 1]|
  }

  ghost predicate Distinct<X>(s: seq<X>) {
    forall i, j :: 0 <= i < j < |s| ==> s[i] != s[j]
  }

  ghost function Elements<X>(s: seq<X>): set<X> { set x | x in s }

  lemma {:induction false} DistinctCount<X>(s: seq<X>)
    requires Distinct(s)
    ensures |Elements(s)| == |s|
  {
    if s == [] {
    } else {
      var n := |s| - 1;
      DistinctCount(s[..n]);
      assert s == s[..n] + [s[n]];
      assert Elements(s) == Elements(s[..n]) + {s[n]};
    }
  }

  lemma {:induction false} UnusedBlock(used: set<nat>) returns (b: nat)
    ensures b > 0 && forall u :: u in used ==> u < b
    decreases |used|
  {
    if used == {} {
      b := 1;
    } else {
      var u :| u in used;
      var b' := UnusedBlock(used - {u});
      b := if u < b' then b' else u + 1;
      forall v | v in used ensures v < b { assert v == u || v in used - {u}; }
    }
  }

  // ---------------------------------------------------------------------------------
  // The allocator's state and what each step does to it

  /** All instances of PagedAllocator over cells of type `T`, one per size class, and the malloc below them.
      The static members of instance `c` are the `c`-th elements of `pool`, `poolEnd` and `garbage`; the
      last four components only record history. */
  datatype Pools<T> = Pools(
    sizes: seq<nat>,          // cells per slot
    pageSlots: seq<nat>,      // slots per page
    blocks: map<nat, seq<T>>, // what malloc has handed out
    pool: seq<Ptr>,
    poolEnd: seq<Ptr>,
    garbage: seq<seq<Ptr>>,
    left: seq<nat>,           // slots not yet carved from the current page
    slots: map<Ptr, nat>,     // every slot ever carved, with its class
    live: set<Ptr>,           // slots handed out and not yet freed
    pageOf: map<nat, nat>     // every page, with its class
  ) {
    ghost predicate Ok() {
      && |sizes| == |pageSlots| == |pool| == |poolEnd| == |garbage| == |left|
      && (forall c :: 0 <= c < |sizes| ==> sizes[c] > 0 && pageSlots[c] > 0)
      && 0 !in blocks && pageOf.Keys <= blocks.Keys
      && (forall c: nat :: c < |sizes| ==> PoolOk(c) && FreeListOk(c))
      && SlotsOk() && live <= slots.Keys
      && (forall p, q :: p in slots && q in slots && p != q ==> Apart(p, sizes[slots[p]], q, sizes[slots[q]]))
    }

    /** The uncarved rest of the current page of class `c` is a whole number of slots. */
    ghost predicate PoolOk(c: nat)
      requires c < |sizes| && |sizes| == |pool| == |poolEnd| == |left|
    {
      && pool[c].blk == poolEnd[c].blk && poolEnd[c].off == pool[c].off + left[c] * sizes[c]
      && (left[c] > 0 ==>
            && pool[c].blk in pageOf && pageOf[pool[c].blk] == c
            && pool[c].blk in blocks && poolEnd[c].off <= |blocks[pool[c].blk]|)
    }

    /** Slots lie inside a page of their class, behind the carving pointer. */
    ghost predicate SlotsOk()
      requires |sizes| == |pool|
    {
      forall p :: p in slots ==>
        && slots[p] < |sizes| && p.blk in pageOf && pageOf[p.blk] == slots[p]
        && p.blk in blocks && p.off + sizes[slots[p]] <= |blocks[p.blk]|
        && (p.blk == pool[slots[p]].blk ==> p.off + sizes[slots[p]] <= pool[slots[p]].off)
    }

    /** Every slot carved is either live or on its class's free list, once. */
    ghost predicate FreeListOk(c: nat)
      requires c < |garbage|
    {
      Distinct(garbage[c]) && Elements(garbage[c]) == FreeSlots(c)
    }

    ghost function FreeSlots(c: nat): set<Ptr> {
      set p | p in slots && slots[p] == c && p !in live
    }

    /** After malloc of block `b` with contents `data`. */
    ghost function WithBlock(b: nat, data: seq<T>): Pools<T> {
      this.(blocks := blocks[b := data])
    }

    /** After block `b` became the current page of class `c`. */
    ghost function WithPage(c: nat, b: nat, data: seq<T>): Pools<T>
      requires c < |sizes| == |pageSlots| == |pool| == |poolEnd| == |left|
    {
      this.(blocks := blocks[b := data], pageOf := pageOf[b := c], left := left[c := pageSlots[c]],
            pool := pool[c := Ptr(b, 0)], poolEnd := poolEnd[c := Ptr(b, sizes[c] * pageSlots[c])])
    }

    /** After the next slot of the current page was handed out. */
    ghost function Carved(c: nat): Pools<T>
      requires c < |sizes| == |pool| == |left| && left[c] > 0
    {
      var p := pool[c];
      this.(pool := pool[c := Ptr(p.blk, p.off + sizes[c])], left := left[c := left[c] - 1],
            slots := slots[p := c], live := live + {p})
    }

    /** After the last slot freed was handed out again. */
    ghost function Recycled(c: nat): Pools<T>
      requires c < |garbage| && garbage[c] != []
    {
      var n := |garbage[c]| - 1;
      this.(garbage := garbage[c := garbage[c][..n]], live := live + {garbage[c][n]})
    }

    ghost function Freed(c: nat, p: Ptr): Pools<T>
      requires c < |garbage|
    {
      this.(garbage := garbage[c := garbage[c] + [p]], live := live - {p})
    }

    lemma WithBlockOk(b: nat, data: seq<T>)
      requires Ok() && b != 0 && (b in blocks ==> |data| == |blocks[b]|)
      ensures WithBlock(b, data).Ok()
    {
      var s := WithBlock(b, data);
      forall c: nat | c < |sizes| ensures s.PoolOk(c) && s.FreeListOk(c) { assert PoolOk(c) && FreeListOk(c); }
    }

    lemma WithoutBlockOk(b: nat)
      requires Ok() && b !in pageOf
      ensures this.(blocks := blocks - {b}).Ok()
    {
      var s := this.(blocks := blocks - {b});
      forall c: nat | c < |sizes| ensures s.PoolOk(c) && s.FreeListOk(c) { assert PoolOk(c) && FreeListOk(c); }
    }

    lemma WithPageOk(c: nat, b: nat, data: seq<T>)
      requires Ok() && b != 0 && b !in blocks && c < |sizes| && |data| == sizes[c] * pageSlots[c]
      ensures WithPage(c, b, data).Ok() && Grown(this, WithPage(c, b, data))
    {
      var s := WithPage(c, b, data);
      forall k: nat | k < |sizes| ensures s.PoolOk(k) && s.FreeListOk(k) { assert PoolOk(k) && FreeListOk(k); }
    }

    lemma CarvedOk(c: nat)
      requires Ok() && c < |sizes| && left[c] > 0
      ensures pool[c] !in slots && Carved(c).Ok()
    {
      CarveRoom(c);
      CarvedLists(c);
      CarvedSlots(c);
      hide Pools<T>.PoolOk, Pools<T>.FreeListOk, Pools<T>.SlotsOk, Apart;
    }

    lemma CarvedSlots(c: nat)
      requires Ok() && c < |sizes| && left[c] > 0
      ensures Carved(c).SlotsOk()
      ensures var t := Carved(c);
        forall p, q :: p in t.slots && q in t.slots && p != q ==> Apart(p, sizes[t.slots[p]], q, sizes[t.slots[q]])
    {
      CarveRoom(c);
      hide Pools<T>.PoolOk, Pools<T>.FreeListOk;
    }

    lemma CarvedLists(c: nat)
      requires Ok() && c < |sizes| && left[c] > 0
      ensures forall k: nat :: k < |sizes| ==> Carved(c).PoolOk(k) && Carved(c).FreeListOk(k)
    {
      CarveRoom(c);
      forall k: nat | k < |sizes| ensures Carved(c).PoolOk(k) && Carved(c).FreeListOk(k) {
        assert PoolOk(k) && FreeListOk(k);
        assert Carved(c).FreeSlots(k) == FreeSlots(k);
      }
    }

    /** The carving pointer has room for a slot and every slot of its page is behind it. */
    lemma CarveRoom(c: nat)
      requires Ok() && c < |sizes| && left[c] > 0
      ensures left[c] * sizes[c] == sizes[c] + (left[c] - 1) * sizes[c]
      ensures pool[c].blk in blocks && pool[c].blk in pageOf && pageOf[pool[c].blk] == c
      ensures pool[c].off + sizes[c] <= poolEnd[c].off <= |blocks[pool[c].blk]|
      ensures pool[c] !in slots
      ensures forall q :: q in slots ==> Apart(pool[c], sizes[c], q, sizes[slots[q]])
    {
      assert PoolOk(c);
    }

    lemma Shape()
      requires Ok()
      ensures |sizes| == |pageSlots| == |pool| == |poolEnd| == |garbage| == |left|
      ensures 0 !in blocks && pageOf.Keys <= blocks.Keys && live <= slots.Keys
      ensures forall c :: 0 <= c < |sizes| ==>
        sizes[c] > 0 && pageSlots[c] > 0 && (poolEnd[c].off <= pool[c].off <==> left[c] == 0)
    {
      forall c: nat | c < |sizes| ensures poolEnd[c].off <= pool[c].off <==> left[c] == 0 {
        assert PoolOk(c);
      }
    }

    lemma SlotPlace(p: Ptr)
      requires Ok() && p in slots
      ensures slots[p] < |sizes| && p.blk in pageOf && pageOf[p.blk] == slots[p]
      ensures p.blk in blocks && p.off + sizes[slots[p]] <= |blocks[p.blk]|
    {
    }

    lemma SlotsApart(p: Ptr, q: Ptr)
      requires Ok() && p in slots && q in slots && p != q
      ensures slots[p] < |sizes| && slots[q] < |sizes| && Apart(p, sizes[slots[p]], q, sizes[slots[q]])
      ensures p.blk != q.blk || p.off + sizes[slots[p]] <= q.off || q.off + sizes[slots[q]] <= p.off
    {
    }

    /** Slots carved = live + free-listed, class by class. */
    lemma SlotsConserved(c: nat)
      requires Ok() && c < |sizes|
      ensures |set p | p in slots && slots[p] == c| == |set p | p in live && slots[p] == c| + |garbage[c]|
    {
      assert FreeListOk(c);
      DistinctCount(garbage[c]);
      var carved, used := set p | p in slots && slots[p] == c, set p | p in live && slots[p] == c;
      assert carved == used + FreeSlots(c) && used !! FreeSlots(c);
    }

    lemma RecycledOk(c: nat)
      requires Ok() && c < |sizes| && garbage[c] != []
      ensures Recycled(c).Ok()
      ensures var p := garbage[c][|garbage[c]| - 1]; p !in live && p in slots && slots[p] == c
    {
      var s, p := Recycled(c), garbage[c][|garbage[c]| - 1];
      assert FreeListOk(c);
      assert p in Elements(garbage[c]);
      DropLast(garbage[c]);
      forall k: nat | k < |sizes| ensures s.PoolOk(k) && s.FreeListOk(k) {
        assert PoolOk(k) && FreeListOk(k);
        assert s.FreeSlots(k) == FreeSlots(k) - {p};
      }
    }

    lemma FreedOk(c: nat, p: Ptr)
      requires Ok() && p in live && slots[p] == c
      ensures c < |garbage| && Freed(c, p).Ok()
    {
      var s := Freed(c, p);
      assert FreeListOk(c);
      assert p !in Elements(garbage[c]);
      AddLast(garbage[c], p);
      forall k: nat | k < |sizes| ensures s.PoolOk(k) && s.FreeListOk(k) {
        assert PoolOk(k) && FreeListOk(k);
        assert s.FreeSlots(k) == if k == c then FreeSlots(k) + {p} else FreeSlots(k);
      }
    }
  }

  lemma DropLast<X>(s: seq<X>)
    requires s != [] && Distinct(s)
    ensures Distinct(s[..|s| - 1]) && Elements(s[..|s| - 1]) == Elements(s) - {s[|s| - 1]}
  {
    assert s == s[..|s| - 1] + [s[|s| - 1]];
  }

  lemma AddLast<X>(s: seq<X>, x: X)
    requires Distinct(s) && x !in s
    ensures Distinct(s + [x]) && Elements(s + [x]) == Elements(s) + {x}
  {
  }

  ghost predicate Apart(p: Ptr, n: nat, q: Ptr, m: nat) {
    p.blk != q.blk || p.off + n <= q.off || q.off + m <= p.off
  }

  // ---------------------------------------------------------------------------------
  // The allocator

  class PagedHeap<T> {
    const sizes: seq<nat>
    const pageSlots: seq<nat>
    const zero: T
    var blocks: map<nat, seq<T>>
    var pool: seq<Ptr>
    var poolEnd: seq<Ptr>
    var garbage: seq<seq<Ptr>>
    ghost var left: seq<nat>
    ghost var slots: map<Ptr, nat>
    ghost var live: set<Ptr>
    ghost var pageOf: map<nat, nat>

    ghost function State(): Pools<T>
      reads this
    {
      Pools(sizes, pageSlots, blocks, pool, poolEnd, garbage, left, slots, live, pageOf)
    }

    /** Before the first allocation: null pools, empty free lists. */
    constructor (sizes: seq<nat>, pageSlots: seq<nat>, zero: T)
      requires |sizes| == |pageSlots|
      requires forall c :: 0 <= c < |sizes| ==> sizes[c] > 0 && pageSlots[c] > 0
      ensures State().Ok() && live == {} && blocks == map[] && pageOf == map[]
      ensures this.sizes == sizes && this.pageSlots == pageSlots
    {
      this.sizes, this.pageSlots, this.zero := sizes, pageSlots, zero;
      blocks, slots, live, pageOf := map[], map[], {}, map[];
      pool := seq(|sizes|, _ => Ptr(0, 0));
      poolEnd := seq(|sizes|, _ => Ptr(0, 0));
      garbage := seq(|sizes|, _ => []);
      left := seq(|sizes|, _ => 0);
    }

    /** Any unused block, with any contents. */
    method Malloc(n: nat) returns (b: nat)
      requires State().Ok()
      modifies this`blocks
      ensures b != 0 && b !in old(blocks) && b in blocks && |blocks[b]| == n
      ensures State() == old(State()).WithBlock(b, blocks[b]) && State().Ok()
    {
      ghost var unused := UnusedBlock(blocks.Keys);
      assert unused !in blocks.Keys;
      b :| b != 0 && b !in blocks.Keys;
      assert |seq(n, _ => zero)| == n;
      var contents: seq<T> :| |contents| == n;
      State().WithBlockOk(b, contents);
      blocks := blocks[b := contents];
    }

    /** Hands out a slot: the last one freed, or else the next one of the page, malloc'ing and zeroing a new
        page when the current one is used up. */
    method Alloc(c: nat) returns (p: Ptr)
      requires State().Ok() && c < |sizes|
      modifies this
      ensures State().Ok() && p !in old(live) && live == old(live) + {p} && p in slots && slots[p] == c
      ensures old(slots.Keys) <= slots.Keys && forall q :: q in old(slots) ==> slots[q] == old(slots[q])
      ensures Grown(old(State()), State())
    {
      hide Pools<T>.Ok;
      State().Shape();
      if garbage[c] == [] {
        if poolEnd[c].off <= pool[c].off {
          NewPage(c);
        }
        p := Carve(c);
      } else {
        p := Recycle(c);
      }
    }

    method Carve(c: nat) returns (p: Ptr)
      requires State().Ok() && c < |sizes| && c < |left| && left[c] > 0
      modifies this`pool, this`left, this`slots, this`live
      ensures State().Ok() && p !in old(slots) && p !in old(live)
      ensures live == old(live) + {p} && slots == old(slots)[p := c]
    {
      hide Pools<T>.Ok;
      State().Shape();
      State().CarvedOk(c);
      p := pool[c];
      pool := pool[c := Ptr(p.blk, p.off + sizes[c])];
      slots, live, left := slots[p := c], live + {p}, left[c := left[c] - 1];
    }

    method Recycle(c: nat) returns (p: Ptr)
      requires State().Ok() && c < |sizes| && c < |garbage| && garbage[c] != []
      modifies this`garbage, this`live
      ensures State().Ok() && p !in old(live) && live == old(live) + {p} && p in slots && slots[p] == c
    {
      hide Pools<T>.Ok;
      State().RecycledOk(c);
      p := garbage[c][|garbage[c]| - 1];
      garbage := garbage[c := garbage[c][..|garbage[c]| - 1]];
      live := live + {p};
    }

    method NewPage(c: nat)
      requires State().Ok() && c < |sizes| && poolEnd[c].off <= pool[c].off
      modifies this`blocks, this`pool, this`poolEnd, this`pageOf, this`left
      ensures State().Ok() && |left| == |sizes| && left[c] > 0 && Grown(old(State()), State())
    {
      hide Pools<T>.Ok, Grown;
      ghost var before := State();
      before.Shape();
      var size := sizes[c] * pageSlots[c];
      var b := Malloc(size);
      var data := seq(size, _ => zero);
      before.WithPageOk(c, b, data);
      assert blocks[b := data] == before.blocks[b := data];
      blocks := blocks[b := data];
      pool := pool[c := Ptr(b, 0)];
      poolEnd := poolEnd[c := Ptr(b, size)];
      pageOf, left := pageOf[b := c], left[c := pageSlots[c]];
    }

    /** Puts a slot on the free list of the class given. */
    method Free(c: nat, p: Ptr)
      requires State().Ok() && p in live && slots[p] == c
      modifies this`garbage, this`live
      ensures State() == old(State()).Freed(c, p) && State().Ok()
    {
      State().FreedOk(c, p);
      garbage := garbage[c := garbage[c] + [p]];
      live := live - {p};
    }

    /** libc's free. */
    method Release(b: nat)
      requires State().Ok() && b in blocks && b !in pageOf
      modifies this`blocks
      ensures State() == old(State()).(blocks := old(blocks) - {b}) && State().Ok()
    {
      State().WithoutBlockOk(b);
      blocks := blocks - {b};
    }

    /** memcpy of `data` to `p`. */
    method Copy(p: Ptr, data: seq<T>)
      requires State().Ok() && p.blk in blocks && p.off + |data| <= |blocks[p.blk]|
      modifies this`blocks
      ensures State() == old(State()).WithBlock(p.blk, Overwrite(old(blocks)[p.blk], p.off, data)) && State().Ok()
    {
      assert p.blk != 0;
      State().WithBlockOk(p.blk, Overwrite(blocks[p.blk], p.off, data));
      blocks := blocks[p.blk := Overwrite(blocks[p.blk], p.off, data)];
    }
  }

  function Overwrite<X>(s: seq<X>, at: nat, data: seq<X>): (r: seq<X>)
    requires at + |data| <= |s|
    ensures |r| == |s| && r[at..at + |data|] == data
    ensures forall i :: 0 <= i < at || at + |data| <= i < |s| ==> r[i] == s[i]
  {
    s[..at] + data + s[at + |data|..]
  }

  /** At most pages were added, and no existing block changed. */
  ghost predicate Grown<X>(a: Pools<X>, b: Pools<X>) {
    && a.blocks.Keys <= b.blocks.Keys && a.pageOf.Keys <= b.pageOf.Keys
    && (forall k :: k in a.blocks ==> b.blocks[k] == a.blocks[k])
    && (forall k :: k in a.pageOf ==> b.pageOf[k] == a.pageOf[k])
    && (forall k :: k in b.blocks && k !in a.blocks ==> k in b.pageOf)
    && (forall k :: k in b.pageOf && k !in a.pageOf ==> k !in a.blocks)
  }
}
