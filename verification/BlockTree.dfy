/** Passes 1 to 3 of the parser: build the block tree, label heights, wire the longest chain. */
module BlockTree {
  import opened Types

  /** What pass 1 reads of one block: its hash, the parent hash stored in its header, and where its bytes are. */
  datatype Header = Header(hash: Hash, prevHash: Hash, data: seq<Byte>)

  // ---------------------------------------------------------------------------------
  // The hash graph, and what "height" means in it

  /** `h` is reached from the null hash by exactly `n` parent steps. */
  ghost predicate DescendsAt(parents: map<Hash, Hash>, h: Hash, n: nat)
    decreases n
  {
    if n == 0 then h == NULL_HASH
    else h != NULL_HASH && h in parents && DescendsAt(parents, parents[h], n - 1)
  }

  /** Distance of `h` from the null hash, or -1 when `h` does not descend from it. */
  ghost function HeightOf(parents: map<Hash, Hash>, h: Hash): int {
    if n: nat :| DescendsAt(parents, h, n) then n else -1
  }

  /** The hashes from the null hash up to `h`, both included. */
  ghost function Ancestry(parents: map<Hash, Hash>, h: Hash, n: nat): (r: seq<Hash>)
    requires DescendsAt(parents, h, n)
    ensures |r| == n + 1 && r[0] == NULL_HASH && r[n] == h
    ensures forall i {:trigger r[i]} :: 0 < i <= n ==> r[i] in parents && r[i - 1] == parents[r[i]]
    decreases n
  {
    if n == 0 then [h] else Ancestry(parents, parents[h], n - 1) + [h]
  }

  lemma {:induction false} DescendsAtOneDepth(parents: map<Hash, Hash>, h: Hash, m: nat, n: nat)
    requires DescendsAt(parents, h, m) && DescendsAt(parents, h, n)
    ensures m == n
    decreases m
  {
    if m > 0 && n > 0 {
      DescendsAtOneDepth(parents, parents[h], m - 1, n - 1);
    }
  }

  lemma {:induction false} HeightOfMeaning(parents: map<Hash, Hash>, h: Hash, n: nat)
    ensures HeightOf(parents, h) == n <==> DescendsAt(parents, h, n)
  {
    if DescendsAt(parents, h, n) {
      DescendsAtOneDepth(parents, h, HeightOf(parents, h), n);
    }
  }

  lemma HeightOfStep(parents: map<Hash, Hash>, h: Hash)
    ensures HeightOf(parents, h) >= -1
    ensures HeightOf(parents, h) == 0 <==> h == NULL_HASH
    ensures h != NULL_HASH ==>
      HeightOf(parents, h) ==
        if h in parents && HeightOf(parents, parents[h]) >= 0 then HeightOf(parents, parents[h]) + 1 else -1
  {
    HeightOfMeaning(parents, h, 0);
    if HeightOf(parents, h) > 0 {
      HeightOfMeaning(parents, parents[h], HeightOf(parents, h) - 1);
    } else if h != NULL_HASH && h in parents && HeightOf(parents, parents[h]) >= 0 {
      HeightOfMeaning(parents, h, HeightOf(parents, parents[h]) + 1);
    }
  }

  /** The parent relation has no cycle: `rank` strictly decreases from a block to its parent. */
  ghost predicate Acyclic(parents: map<Hash, Hash>, rank: Hash -> nat) {
    forall h :: h in parents ==> rank(parents[h]) < rank(h)
  }

  /** No header hashes to the null hash, and a hash determines the header it was computed from. */
  ghost predicate ProperHeaders(headers: seq<Header>) {
    && (forall i :: 0 <= i < |headers| ==> headers[i].hash != NULL_HASH)
    && (forall i, j :: 0 <= i < |headers| && 0 <= j < |headers| && headers[i].hash == headers[j].hash ==>
          headers[i].prevHash == headers[j].prevHash)
  }

  /** The parent relation the headers describe. */
  ghost function ParentsOf(headers: seq<Header>): map<Hash, Hash> {
    if headers == [] then map[]
    else
      var n := |headers| - 1;
      ParentsOf(headers[..n])[headers[n].hash := headers[n].prevHash]
  }

  lemma {:induction false} ParentsOfMeaning(headers: seq<Header>, h: Hash)
    requires ProperHeaders(headers)
    ensures h in ParentsOf(headers) <==> exists i :: 0 <= i < |headers| && headers[i].hash == h
    ensures forall i :: 0 <= i < |headers| && headers[i].hash == h ==> ParentsOf(headers)[h] == headers[i].prevHash
  {
    if headers == [] {
    } else {
      var n := |headers| - 1;
      ParentsOfMeaning(headers[..n], h);
      assert headers == headers[..n] + [headers[n]];
    }
  }

  lemma OneMoreHeader(headers: seq<Header>, i: nat)
    requires ProperHeaders(headers) && i < |headers|
    ensures ParentsOf(headers[..i + 1]) == ParentsOf(headers[..i])[headers[i].hash := headers[i].prevHash]
    ensures headers[i].hash in ParentsOf(headers[..i]) ==>
      ParentsOf(headers[..i])[headers[i].hash] == headers[i].prevHash
  {
    assert headers[..i + 1][..i] == headers[..i];
    ParentsOfMeaning(headers[..i], headers[i].hash);
  }

  // ---------------------------------------------------------------------------------
  // The tree on the heap

  class Block {
    const hash: Hash
    const prevHash: Hash   // in the header on disk, re-read by FindBlockParent
    const data: seq<Byte>  // what the chunk designates
    var height: int
    var prev: Block?
    var next: Block?       // scratch return path in pass 2, chain successor after pass 3

    constructor (h: Header, prev: Block?)
      ensures Origin() == h
      ensures height == -1 && this.prev == prev && next == null
    {
      hash, prevHash, data := h.hash, h.prevHash, h.data;
      this.height, this.prev, this.next := -1, prev, null;
    }

    /** The header the block was made from. */
    function Origin(): Header {
      Header(hash, prevHash, data)
    }
  }

  class Tree {
    var blockMap: map<Hash, Block>
    var nullBlock: Block
    var maxBlock: Block?
    var maxHeight: int
    ghost var blocks: set<Block>         // every block ever allocated
    ghost var parents: map<Hash, Hash>   // every header ever read

    /** Links and map agree with the headers; `prev` is either unset or the header's parent. */
    ghost predicate Linked()
      reads this`blockMap, this`nullBlock, this`blocks, this`parents, blocks`prev
    {
      && nullBlock in blocks && nullBlock.hash == NULL_HASH && nullBlock.prev == null
      && NULL_HASH !in parents && blockMap.Keys == parents.Keys + {NULL_HASH}
      && blockMap[NULL_HASH] == nullBlock
      && (forall h :: h in blockMap ==> blockMap[h] in blocks && blockMap[h].hash == h)
      && (forall b {:trigger b.hash} :: b in blocks && b != nullBlock ==>
            b.hash in parents && parents[b.hash] == b.prevHash)
      && (forall b {:trigger b.prev} :: b in blocks && b != nullBlock && b.prev != null ==>
            b.prev in blocks && b.prev.hash == b.prevHash)
    }

    /** Every label is right and every labelled block has its scratch field cleared. */
    ghost predicate Labelled()
      reads this`nullBlock, this`blocks, this`parents, this`maxBlock, this`maxHeight, blocks`height, blocks`prev,
              blocks`next
    {
      && nullBlock in blocks && nullBlock.height == 0
      && LabelsRight() && ClearedExcept(null) && ParentsLabelled() && MaxIsRight()
    }

    /** A label is the true height, or -1 for none. */
    ghost predicate LabelsRight()
      reads this`blocks, this`parents, blocks`height
    {
      forall b {:trigger b.height} :: b in blocks ==> b.height == -1 || (b.height >= 0 && b.height == Height(b))
    }

    /** Every labelled block other than `b` has its scratch field cleared. */
    ghost predicate ClearedExcept(b: Block?)
      reads this`blocks, blocks`height, blocks`next
    {
      forall c {:trigger c.next} :: c in blocks && c != b && c.height >= 0 ==> c.next == null
    }

    /** A labelled block other than the null block has a labelled parent, one step below. */
    ghost predicate ParentsLabelled()
      reads this`nullBlock, this`blocks, blocks`height, blocks`prev
    {
      forall b {:trigger b.prev} :: b in blocks && b.height >= 0 && b != nullBlock ==>
        b.prev != null && b.prev in blocks && b.prev.height == b.height - 1 >= 0
    }

    /** `maxHeight` bounds every label; `maxBlock` attains it, and is unset while only the null block is labelled. */
    ghost predicate MaxIsRight()
      reads this`blocks, this`maxBlock, this`maxHeight, blocks`height
    {
      && (forall b {:trigger b.height} :: b in blocks ==> b.height <= maxHeight)
      && (maxBlock == null ==> maxHeight == 0)
      && (maxBlock != null ==> maxHeight > 0 && maxBlock in blocks && maxBlock.height == maxHeight)
    }

    /** The block tree holding only the null block. */
    constructor ()
      ensures Linked() && Unlabelled() && fresh(blocks)
      ensures parents == map[] && blocks == {nullBlock}
    {
      var b := new Block(Header(NULL_HASH, [], []), null);
      b.height := 0;
      nullBlock, maxBlock, maxHeight := b, null, 0;
      blockMap := map[NULL_HASH := b];
      blocks, parents := {b}, map[];
    }

    /** What the label of `b` should be. */
    ghost function Height(b: Block): int
      reads this`parents
    {
      HeightOf(parents, b.hash)
    }

    /** Before pass 2: only the null block carries a label and no scratch field is set. */
    ghost predicate Unlabelled()
      reads this`nullBlock, this`blocks, this`maxBlock, this`maxHeight, blocks`height, blocks`next
    {
      && nullBlock in blocks && nullBlock.height == 0 && maxBlock == null && maxHeight == 0
      && (forall b :: b in blocks ==> b.next == null)
      && (forall b :: b in blocks && b != nullBlock ==> b.height == -1)
    }

    /** Every block was made from one of the headers. */
    ghost predicate MadeFrom(headers: seq<Header>)
      reads this`nullBlock, this`blocks
    {
      forall b :: b in blocks && b != nullBlock ==> b.Origin() in headers
    }

    /** Pass 1: one block per header, linked to its parent when the parent was read before it. */
    method BuildBlockHeaders(headers: seq<Header>)
      requires Linked() && Unlabelled() && parents == map[] && blocks == {nullBlock}
      requires ProperHeaders(headers)
      modifies this
      ensures Linked() && Unlabelled() && fresh(blocks - old(blocks))
      ensures parents == ParentsOf(headers) && nullBlock == old(nullBlock) && MadeFrom(headers)
    {
      for i := 0 to |headers|
        invariant Linked() && Unlabelled() && fresh(blocks - old(blocks)) && nullBlock == old(nullBlock)
        invariant parents == ParentsOf(headers[..i]) && MadeFrom(headers)
      {
        OneMoreHeader(headers, i);
        GetBlockHeader(headers[i]);
      }
      assert headers[..|headers|] == headers;
    }

    /** Pass 1 for one block. A block read twice replaces the first in the map, whose links survive. */
    method GetBlockHeader(h: Header)
      requires Linked() && Unlabelled() && h.hash != NULL_HASH
      requires h.hash in parents ==> parents[h.hash] == h.prevHash
      modifies this`blockMap, this`blocks, this`parents
      ensures Linked() && Unlabelled() && fresh(blocks - old(blocks)) && old(blocks) <= blocks
      ensures parents == old(parents)[h.hash := h.prevHash]
      ensures blockMap[h.hash] !in old(blocks) && blocks == old(blocks) + {blockMap[h.hash]}
      ensures blockMap[h.hash].Origin() == h
      ensures blockMap[h.hash].prev == if h.prevHash in old(blockMap) then old(blockMap[h.prevHash]) else null
    {
      var prev := if h.prevHash in blockMap then blockMap[h.prevHash] else null;
      var block := new Block(h, prev);
      blockMap := blockMap[h.hash := block];
      blocks, parents := blocks + {block}, parents[h.hash := h.prevHash];
    }

    /** Late link: look the header's parent hash up in the complete map. */
    method FindBlockParent(b: Block)
      requires Linked() && ParentsLabelled() && b in blocks && b != nullBlock && b.height < 0 && b.prev == null
      modifies b`prev
      ensures Linked()
      ensures ParentsLabelled()
      ensures if b.prevHash in blockMap then b.prev == blockMap[b.prevHash] else b.prev == null
    {
      if b.prevHash in blockMap {
        b.prev := blockMap[b.prevHash];
        forall c | c in blocks && c.height >= 0 && c != nullBlock
          ensures c.prev != null && c.prev in blocks && c.prev.height == c.height - 1 >= 0
        {
          assert c.prev == old(c.prev) && old(c.prev.height) == old(c.height) - 1;
        }
      }
    }

    lemma FirstLabels()
      requires Linked() && Unlabelled()
      ensures Labelled()
    {
      HeightOfStep(parents, NULL_HASH);
    }

    /** Pass 2 for one block: walk up to a labelled block leaving a return path in `next`, then walk
        back down, labelling and clearing the path. Gives up when some ancestor has no parent. */
    method ComputeBlockHeight(block: Block, ghost rank: Hash -> nat)
      requires Linked() && Labelled() && block in blocks && Acyclic(parents, rank)
      modifies this`maxBlock, this`maxHeight, blocks`height, blocks`prev, blocks`next
      ensures Linked() && Labelled()
      ensures block.height == Height(block)
      ensures forall b :: b in blocks && old(b.height) >= 0 ==> b.height == old(b.height)
    {
      hide HeightOf, DescendsAt;
      if block == nullBlock {
        HeightOfStep(parents, NULL_HASH);
        return;
      }
      ghost var path: seq<Block>;
      var b: Block;
      b, path := WalkUp(block, rank);
      if b.height >= 0 {
        WalkDown(block, b, path);
      }
    }

    /** The upward walk: stops at a labelled block, or at one whose parent cannot be located. */
    method WalkUp(block: Block, ghost rank: Hash -> nat) returns (b: Block, ghost path: seq<Block>)
      requires Linked() && Labelled() && block in blocks && Acyclic(parents, rank)
      modifies blocks`prev, blocks`next
      ensures Linked() && ParentsLabelled() && LabelsRight() && ClearedExcept(b)
      ensures if b.height < 0 then Height(block) == -1 else UpPath(path, block, b)
    {
      hide HeightOf, DescendsAt, Retraceable;
      b, path := block, [block];
      StartPath(block);
      while b.height < 0
        invariant Linked() && ParentsLabelled() && LabelsRight() && ClearedExcept(b) && UpPath(path, block, b)
        decreases rank(b.hash)
      {
        var up := Climb(block, b, path);
        if up == null { return; }
        b, path := up, path + [up];
      }
    }

    lemma StartPath(block: Block)
      requires block in blocks
      ensures UpPath([block], block, block)
    {
      hide HeightOf, DescendsAt;
    }

    /** One step of the upward walk, late-linking `b` first if need be; null when `b` has no parent. */
    method Climb(block: Block, b: Block, ghost path: seq<Block>) returns (up: Block?)
      requires Linked() && ParentsLabelled() && LabelsRight() && ClearedExcept(b) && UpPath(path, block, b)
      requires b.height < 0 && b != nullBlock
      modifies b`prev, blocks`next
      ensures Linked() && ParentsLabelled() && LabelsRight() && ClearedExcept(up)
      ensures if up == null then Height(block) == -1
              else up.hash == b.prevHash && UpPath(path + [up], block, up)
    {
      hide HeightOf, DescendsAt;
      HeightOfStep(parents, b.hash);
      HeightOfStep(parents, b.prevHash);
      HeightOfStep(parents, block.hash);
      assert Height(block) >= 0 ==> forall i {:trigger path[i]} :: 0 <= i < |path| - 1 ==> path[i] != b;
      if b.prev == null {
        FindBlockParent(b);
      }
      assert UpPath(path, block, b);
      up := b.prev;
      if up != null {
        LinkBack(block, b, up, path);
      }
    }

    /** Leaves the way back to `b` in its parent. */
    method LinkBack(block: Block, b: Block, up: Block, ghost path: seq<Block>)
      requires up in blocks && b.prev == up && b.height == -1 && ClearedExcept(b) && UpPath(path, block, b)
      requires Height(b) == if Height(up) >= 0 then Height(up) + 1 else -1
      modifies up`next
      ensures ClearedExcept(up) && UpPath(path + [up], block, up)
    {
      hide HeightOf, DescendsAt;
      up.next := b;
    }

    /** The downward walk along the return path, labelling and clearing every block on it. */
    method WalkDown(block: Block, top: Block, ghost path: seq<Block>)
      requires Linked() && top.height >= 0 && DownPath(path, block, top, |path| - 1) && MaxIsRight()
      modifies this`maxBlock, this`maxHeight, blocks`height, blocks`next
      ensures Linked() && Labelled()
      ensures block.height == Height(block)
      ensures forall b :: b in blocks && old(b.height) >= 0 ==> b.height == old(b.height)
    {
      hide HeightOf, DescendsAt, Retraceable, ParentsLabelled;
      var b: Block := top;
      ghost var k := |path| - 1;
      var height := b.height;
      assert height == Height(b);
      while true
        invariant Linked() && DownPath(path, block, b, k) && MaxIsRight()
        invariant height == Height(b)
        invariant forall c :: c in blocks && old(c.height) >= 0 ==> c.height == old(c.height)
        decreases k
      {
        var next := LabelAndClear(block, b, height, path, k);
        height := height + 1;
        if block == b { break; }
        b := next;
        k := k - 1;
      }
    }

    /** One step of the downward walk. */
    method LabelAndClear(block: Block, b: Block, height: int, ghost path: seq<Block>, ghost k: int)
      returns (next: Block?)
      requires Linked() && DownPath(path, block, b, k) && MaxIsRight() && height == Height(b)
      modifies this`maxBlock, this`maxHeight, b`height, b`next
      ensures Linked() && MaxIsRight() && b.height == height
      ensures b != block ==> next != null && height + 1 == Height(next) && DownPath(path, block, next, k - 1)
      ensures b == block ==> Labelled()
      ensures old(b.height) >= 0 ==> b.height == old(b.height)
    {
      hide HeightOf, DescendsAt, Linked, LabelsRight, ParentsLabelled, MaxIsRight;
      StepDown(block, b, path, k);
      Label(b, height, path, k);
      KeepMax(b);
      next := Clear(b, path, k);
    }

    method Label(b: Block, height: int, ghost path: seq<Block>, ghost k: int)
      requires b in blocks && (b.height == -1 || b.height == height) && height == Height(b) >= 0
      requires b.height == -1 ==> b.prev != null && b.prev in blocks && b.prev.height == height - 1 >= 0
      requires MaxIsRight() && ParentsLabelled() && LabelsRight() && ClearedExcept(b)
      requires path != [] && Retraceable(path, k) && forall i {:trigger path[i]} :: 0 <= i < k ==> path[i] != b
      modifies b`height
      ensures b.height == height && LabelsRight() && ClearedExcept(b)
      ensures ParentsLabelled()
      ensures Retraceable(path, k)
      ensures MaxButFor(b)
    {
      hide HeightOf, DescendsAt;
      b.height := height;
      forall c | c in blocks && c.height >= 0 && c != nullBlock
        ensures c.prev != null && c.prev in blocks && c.prev.height == c.height - 1 >= 0
      {
        assert c.prev == old(c.prev) && (c == b || old(c.prev.height) == old(c.height) - 1);
      }
    }

    /** `MaxIsRight`, but `b` may stand higher. */
    ghost predicate MaxButFor(b: Block)
      reads this`blocks, this`maxBlock, this`maxHeight, blocks`height
    {
      && (forall c {:trigger c.height} :: c in blocks && c != b ==> c.height <= maxHeight)
      && (maxBlock == null ==> maxHeight == 0)
      && (maxBlock != null ==> maxHeight > 0 && maxBlock in blocks && maxBlock.height == maxHeight)
    }

    method KeepMax(b: Block)
      requires b in blocks && MaxButFor(b)
      modifies this`maxBlock, this`maxHeight
      ensures MaxIsRight()
    {
      if maxHeight < b.height {
        maxHeight := b.height;
        maxBlock := b;
      }
    }

    /** Takes the way back out of `b` and clears it. */
    method Clear(b: Block, ghost path: seq<Block>, ghost k: int) returns (next: Block?)
      requires b in blocks && ClearedExcept(b)
      requires path != [] && Retraceable(path, k) && forall i {:trigger path[i]} :: 0 <= i < k ==> path[i] != b
      modifies b`next
      ensures next == old(b.next)
      ensures k > 0 ==> Retraceable(path, k - 1)
      ensures forall c {:trigger ClearedExcept(c)} :: ClearedExcept(c)
    {
      hide HeightOf, DescendsAt;
      next := b.next;
      b.next := null;
    }

    /** What the downward walk relies on at `path[k]`: the rest of the path is elsewhere, the parent is done. */
    lemma StepDown(block: Block, b: Block, path: seq<Block>, k: int)
      requires DownPath(path, block, b, k)
      ensures forall i {:trigger path[i]} :: 0 <= i < k ==> path[i] != b
      ensures k == 0 <==> b == block
      ensures k > 0 ==> b.next == path[k - 1] && path[k - 1].height == -1 && Height(b.next) == Height(b) + 1
      ensures b.height == -1 ==> k < |path| - 1 && b.prev == path[k + 1] && path[k + 1].height == Height(b) - 1 >= 0
      ensures Height(b) >= 0 && (b.height == -1 || b.height == Height(b))
    {
      hide HeightOf, DescendsAt;
      forall i {:trigger path[i]} | 0 <= i < k ensures path[i] != b {
        assert Height(path[i]) == Height(path[0]) - i && Height(path[k]) == Height(path[0]) - k;
      }
    }

    /** The upward walk from `block` has reached `b`: when `block` descends from the null hash, the path
        goes up one unlabelled block at a time and every step can be retraced through `next`. */
    ghost predicate UpPath(path: seq<Block>, block: Block, b: Block)
      reads this`blocks, this`parents, blocks`height, blocks`prev, blocks`next
    {
      && path != [] && path[0] == block && path[|path| - 1] == b && b in blocks
      && (Height(block) < 0 ==> Height(b) < 0)
      && (Height(block) >= 0 ==> Height(b) >= 0 && Retraceable(path, |path| - 1))
    }

    /** `path` follows parents, one height down at a time, and from `path[k]` down to `path[0]` the blocks
        below are unlabelled and `next` leads back. */
    ghost predicate Retraceable(path: seq<Block>, k: int)
      requires path != []
      reads this`blocks, this`parents, blocks`height, blocks`prev, blocks`next
    {
      && 0 <= k < |path|
      && (forall i :: 0 <= i < |path| ==> path[i] in blocks && Height(path[i]) == Height(path[0]) - i)
      && (forall i {:trigger path[i].prev} :: 0 <= i < |path| - 1 ==> path[i].prev == path[i + 1])
      && (forall i {:trigger path[i].next} :: 0 < i <= k ==> path[i].next == path[i - 1])
      && (forall i {:trigger path[i].height} :: 0 <= i < k ==> path[i].height == -1)
    }

    /** The downward walk has reached `path[k] == b`: everything labelled but not on the rest of the path is
        labelled right and cleared. */
    ghost predicate DownPath(path: seq<Block>, block: Block, b: Block, k: int)
      reads this`nullBlock, this`blocks, this`parents, blocks`height, blocks`prev, blocks`next
    {
      && 0 <= k < |path| && Retraceable(path, k) && path[0] == block && path[k] == b && b in blocks
      && path[|path| - 1].height >= 0 && nullBlock in blocks && nullBlock.height == 0
      && (k < |path| - 1 ==> path[k + 1].height >= 0)
      && LabelsRight() && ClearedExcept(b) && ParentsLabelled()
    }

    /** Pass 2: every block of the map, in any order. */
    method ComputeBlockHeights(ghost rank: Hash -> nat)
      requires Linked() && Labelled() && Acyclic(parents, rank)
      modifies this`maxBlock, this`maxHeight, blocks`height, blocks`prev, blocks`next
      ensures Linked() && Labelled() && AllLabelled()
    {
      hide HeightOf, DescendsAt;
      var todo := blockMap.Keys;
      while todo != {}
        invariant Linked() && Labelled() && todo <= blockMap.Keys
        invariant forall h :: h in blockMap && h !in todo ==> blockMap[h].height == HeightOf(parents, h)
      {
        var h :| h in todo;
        ComputeBlockHeight(blockMap[h], rank);
        todo := todo - {h};
      }
      LabelsSettled();
    }

    lemma LabelsSettled()
      requires Linked() && Labelled()
      requires forall h :: h in blockMap ==> blockMap[h].height == HeightOf(parents, h)
      ensures AllLabelled()
    {
      hide HeightOf, DescendsAt;
      forall h | h in parents ensures maxBlock == null ==> HeightOf(parents, h) == -1 {
        HeightOfStep(parents, h);
        assert blockMap[h].height <= maxHeight;
      }
      if maxBlock != null {
        HeightOfStep(parents, maxBlock.hash);
      }
    }

    /** What pass 2 establishes: each block has its distance from the null hash, or -1; labelled blocks have
        no scratch link left; `maxHeight` is the greatest height of all, `maxBlock` a block that has it. */
    ghost predicate AllLabelled()
      requires Linked()
      reads this, blocks
    {
      && (forall h :: h in blockMap ==>
            && blockMap[h].height == HeightOf(parents, h) <= maxHeight
            && (HeightOf(parents, h) >= 0 ==> blockMap[h].next == null))
      && (maxBlock == null <==> forall h :: h in parents ==> HeightOf(parents, h) == -1)
      && (maxBlock != null ==> maxBlock in blocks && maxHeight == maxBlock.height == HeightOf(parents, maxBlock.hash))
    }

    /** Pass 3: make `next` follow the ancestors of the highest block. */
    method WireLongestChain() returns (ghost path: seq<Block>)
      requires Linked() && Labelled() && maxBlock != null
      modifies blocks`next
      ensures Linked() && Wired(path)
    {
      hide HeightOf, DescendsAt;
      var block: Block := maxBlock;
      path := [block];
      while true
        invariant WiredFrom(path, block) && Linked() && ParentsLabelled()
        decreases block.height
      {
        var prev := block.prev;
        if prev == null { break; }
        prev.next := block;
        block := prev;
        path := [block] + path;
      }
    }

    /** `next` leads from `block` through `path` to the highest block and stops there. */
    ghost predicate WiredFrom(path: seq<Block>, block: Block)
      reads this`maxBlock, this`maxHeight, this`blocks, blocks`height, blocks`prev, blocks`next
    {
      && path != [] && path[0] == block && maxBlock != null && path[|path| - 1] == maxBlock
      && (forall i :: 0 <= i < |path| ==> path[i] in blocks && path[i].height == maxHeight + 1 - |path| + i >= 0)
      && maxBlock.next == null
      && (forall i {:trigger path[i].next} :: 0 <= i < |path| - 1 ==> path[i].next == path[i + 1])
      && (forall i {:trigger path[i].prev} :: 0 < i < |path| ==> path[i].prev == path[i - 1])
    }

    /** What pass 3 establishes. */
    ghost predicate Wired(path: seq<Block>)
      reads this`nullBlock, this`maxBlock, this`maxHeight, this`blocks, blocks`height, blocks`prev, blocks`next
    {
      WiredFrom(path, nullBlock) && path[0].height == 0
    }

    /** Pass 4's traversal: the blocks met by following `next` from the null block, which is not visited itself. */
    method FollowNext(ghost path: seq<Block>) returns (visited: seq<Block>)
      requires Linked() && Wired(path)
      ensures |visited| == maxHeight && forall i :: 0 <= i < maxHeight ==> visited[i] == path[i + 1]
    {
      visited := [];
      ghost var k := 1;
      var block := nullBlock.next;
      while block != null
        invariant 1 <= k <= |path| && |visited| == k - 1
        invariant block == if k < |path| then path[k] else null
        invariant forall i :: 0 <= i < k - 1 ==> visited[i] == path[i + 1]
        decreases |path| - k
      {
        visited := visited + [block];
        block := block.next;
        k := k + 1;
      }
    }

    /** `maxHeight` bounds the distance of every block read from the null hash. */
    ghost predicate Bounded()
      reads this`parents, this`maxHeight
    {
      forall h :: h in parents ==> HeightOf(parents, h) <= maxHeight
    }

    lemma VisitedIsLongest(path: seq<Block>, visited: seq<Block>)
      requires Linked() && Wired(path) && Bounded() && maxHeight > 0
      requires |visited| == maxHeight && forall i :: 0 <= i < maxHeight ==> visited[i] == path[i + 1]
      ensures IsLongestChain(parents, HashesOf(HeadersOf(visited)))
    {
      hide HeightOf, DescendsAt;
      var hashes := HashesOf(HeadersOf(visited));
      forall i: nat {:trigger hashes[i]} | i < |hashes|
        ensures hashes[i] in parents && parents[hashes[i]] == if i == 0 then NULL_HASH else hashes[i - 1]
      {
        assert path[i + 1].prev == path[i] && path[i + 1].height > 0;
      }
      forall h, n: nat | DescendsAt(parents, h, n) ensures n <= |hashes| {
        HeightOfMeaning(parents, h, n);
        HeightOfStep(parents, h);
      }
    }

    lemma VisitedWereRead(path: seq<Block>, visited: seq<Block>, headers: seq<Header>)
      requires Wired(path) && MadeFrom(headers)
      requires |visited| == maxHeight && forall i :: 0 <= i < maxHeight ==> visited[i] == path[i + 1]
      ensures forall h :: h in HeadersOf(visited) ==> h in headers
    {
      forall h | h in HeadersOf(visited) ensures h in headers {
        var i :| 0 <= i < |visited| && HeadersOf(visited)[i] == h;
        assert path[i + 1].height == i + 1 && path[0].height == 0;
      }
    }
  }

  function HeadersOf(blocks: seq<Block>): (r: seq<Header>)
    ensures |r| == |blocks| && forall i :: 0 <= i < |r| ==> r[i] == blocks[i].Origin()
  {
    seq(|blocks|, i requires 0 <= i < |blocks| => blocks[i].Origin())
  }

  function HashesOf(headers: seq<Header>): (r: seq<Hash>)
    ensures |r| == |headers| && forall i :: 0 <= i < |r| ==> r[i] == headers[i].hash
  {
    seq(|headers|, i requires 0 <= i < |headers| => headers[i].hash)
  }

  // ---------------------------------------------------------------------------------
  // The passes together

  /** `chain` starts at a child of the null hash, goes from parent to child, and no descent is longer. */
  ghost predicate IsLongestChain(parents: map<Hash, Hash>, chain: seq<Hash>) {
    && chain != []
    && (forall i :: 0 <= i < |chain| ==> chain[i] in parents)
    && parents[chain[0]] == NULL_HASH
    && (forall i {:trigger chain[i]} :: 0 < i < |chain| ==> parents[chain[i]] == chain[i - 1])
    && (forall h, n: nat :: DescendsAt(parents, h, n) ==> n <= |chain|)
  }

  /** Passes 1 to 3. */
  method LinkAll(headers: seq<Header>, ghost rank: Hash -> nat) returns (tree: Tree, ghost path: seq<Block>)
    requires ProperHeaders(headers) && Acyclic(ParentsOf(headers), rank)
    requires exists h :: h in ParentsOf(headers) && HeightOf(ParentsOf(headers), h) >= 0
    ensures tree.parents == ParentsOf(headers) && tree.Linked()
    ensures tree.Bounded() && tree.Wired(path) && tree.maxHeight > 0 && tree.MadeFrom(headers)
  {
    hide HeightOf, DescendsAt;
    tree := new Tree();
    tree.BuildBlockHeaders(headers);
    tree.FirstLabels();
    tree.ComputeBlockHeights(rank);
    path := tree.WireLongestChain();
  }

  /** Passes 1 to 3 and the traversal of pass 4, for any order of the headers in the block files and any
      iteration order of the hash map: the blocks visited form a longest chain of the header graph. */
  method LongestChain(headers: seq<Header>, ghost rank: Hash -> nat) returns (visited: seq<Header>)
    requires ProperHeaders(headers) && Acyclic(ParentsOf(headers), rank)
    requires exists h :: h in ParentsOf(headers) && HeightOf(ParentsOf(headers), h) >= 0
    ensures IsLongestChain(ParentsOf(headers), HashesOf(visited))
    ensures forall h :: h in visited ==> h in headers
  {
    ghost var path;
    var tree;
    tree, path := LinkAll(headers, rank);
    var blocks := tree.FollowNext(path);
    tree.VisitedIsLongest(path, blocks);
    tree.VisitedWereRead(path, blocks, headers);
    visited := HeadersOf(blocks);
  }
}
