/** The four passes together: from the blocks as they lie in the block files to what an analysis reports. */
module Passes {
  import opened Types
  import opened TxFormat
  import opened Ledger
  import opened Parser
  import opened Balances
  import opened Analyses
  import BlockTree

  /** What pass 1 reads of a block: the hash of its first eighty bytes, and the parent hash four bytes in. */
  function HeaderAt(hashOf: seq<Byte> -> Hash, s: seq<Byte>): BlockTree.Header
    requires |s| >= HEADER_SIZE
  {
    BlockTree.Header(hashOf(s[..HEADER_SIZE]), s[4..36], s)
  }

  predicate HaveHeaders(blocks: seq<seq<Byte>>) {
    forall i :: 0 <= i < |blocks| ==> |blocks[i]| >= HEADER_SIZE
  }

  function HeadersAt(hashOf: seq<Byte> -> Hash, blocks: seq<seq<Byte>>): (r: seq<BlockTree.Header>)
    requires HaveHeaders(blocks)
    ensures |r| == |blocks| && forall i :: 0 <= i < |r| ==> r[i] == HeaderAt(hashOf, blocks[i])
  {
    seq(|blocks|, i requires 0 <= i < |blocks| => HeaderAt(hashOf, blocks[i]))
  }

  ghost function ParentsAt(hashOf: seq<Byte> -> Hash, blocks: seq<seq<Byte>>): map<Hash, Hash>
    requires HaveHeaders(blocks)
  {
    BlockTree.ParentsOf(HeadersAt(hashOf, blocks))
  }

  /** What the first three passes rely on: a hash determines the parent, no cycle, and a child of the null hash. */
  ghost predicate ProperBlocks(hashOf: seq<Byte> -> Hash, blocks: seq<seq<Byte>>, rank: Hash -> nat) {
    && HaveHeaders(blocks) && BlockTree.ProperHeaders(HeadersAt(hashOf, blocks))
    && BlockTree.Acyclic(ParentsAt(hashOf, blocks), rank)
    && exists h :: h in ParentsAt(hashOf, blocks) && BlockTree.HeightOf(ParentsAt(hashOf, blocks), h) >= 0
  }

  /** Blocks that follow one another from the null hash on: the parent hash stands at octet 4 of a block, and
      its hash is that of its first eighty octets. */
  ghost predicate FromNull(hashOf: seq<Byte> -> Hash, list: seq<seq<Byte>>) {
    && (forall i :: 0 <= i < |list| ==> |list[i]| >= 80)
    && (list != [] ==> list[0][4..36] == seq(32, _ => 0))
    && (forall i {:trigger list[i]} :: 0 < i < |list| ==> list[i][4..36] == hashOf(list[i - 1][..80]))
  }

  /** Blocks of the files that follow one another from the null hash on, and no more of them do. */
  ghost predicate IsLongest(hashOf: seq<Byte> -> Hash, blocks: seq<seq<Byte>>, chain: seq<seq<Byte>>) {
    && chain != [] && FromNull(hashOf, chain) && (forall s :: s in chain ==> s in blocks)
    && forall other :: FromNull(hashOf, other) && (forall s :: s in other ==> s in blocks) ==> |other| <= |chain|
  }

  /** The transactions of a chain are well-formed and the chain breaks no rule the program takes for granted. */
  ghost predicate CleanChain(hashOf: seq<Byte> -> Hash, chain: seq<seq<Byte>>) {
    && (forall i :: 0 <= i < |chain| ==> BlockAt(hashOf, chain[i]).Some?)
    && ApplyAll(map[], ChainTxs(hashOf, chain)) != Unclean
  }

  function DataOf(headers: seq<BlockTree.Header>): (r: seq<seq<Byte>>)
    ensures |r| == |headers| && forall i :: 0 <= i < |r| ==> r[i] == headers[i].data
  {
    seq(|headers|, i requires 0 <= i < |headers| => headers[i].data)
  }

  lemma OneRead(hashOf: seq<Byte> -> Hash, blocks: seq<seq<Byte>>, h: BlockTree.Header)
    requires HaveHeaders(blocks) && h in HeadersAt(hashOf, blocks)
    ensures h.data in blocks && |h.data| >= HEADER_SIZE && HeaderAt(hashOf, h.data) == h
  {
    var i :| 0 <= i < |blocks| && HeadersAt(hashOf, blocks)[i] == h;
    assert h == HeaderAt(hashOf, blocks[i]);
  }

  /** Headers that were read from blocks are those of their bytes. */
  lemma DataRead(hashOf: seq<Byte> -> Hash, blocks: seq<seq<Byte>>, headers: seq<BlockTree.Header>)
    requires HaveHeaders(blocks) && forall h :: h in headers ==> h in HeadersAt(hashOf, blocks)
    ensures HaveHeaders(DataOf(headers)) && forall s :: s in DataOf(headers) ==> s in blocks
    ensures HeadersAt(hashOf, DataOf(headers)) == headers
  {
    hide HeaderAt, HeadersAt, DataOf;
    forall i | 0 <= i < |headers|
      ensures
        && headers[i].data in blocks && |headers[i].data| >= HEADER_SIZE
        && HeaderAt(hashOf, headers[i].data) == headers[i]
    {
      OneRead(hashOf, blocks, headers[i]);
    }
  }

  /** What a block read says is what the tree of all headers says of it. */
  lemma BlockInTree(hashOf: seq<Byte> -> Hash, blocks: seq<seq<Byte>>, s: seq<Byte>)
    requires HaveHeaders(blocks) && BlockTree.ProperHeaders(HeadersAt(hashOf, blocks))
    requires s in blocks
    ensures |s| >= 80 && hashOf(s[..80]) != NULL_HASH && hashOf(s[..80]) in ParentsAt(hashOf, blocks)
    ensures ParentsAt(hashOf, blocks)[hashOf(s[..80])] == s[4..36]
  {
    hide BlockTree.ParentsOf;
    var headers := HeadersAt(hashOf, blocks);
    var i :| 0 <= i < |blocks| && blocks[i] == s;
    assert headers[i] == HeaderAt(hashOf, s);
    BlockTree.ParentsOfMeaning(headers, hashOf(s[..80]));
  }

  /** Blocks that follow one another from the null hash descend from it by as many steps. */
  lemma {:induction false} FollowersDescend(hashOf: seq<Byte> -> Hash, blocks: seq<seq<Byte>>,
                                            list: seq<seq<Byte>>, k: nat)
    requires HaveHeaders(blocks) && BlockTree.ProperHeaders(HeadersAt(hashOf, blocks))
    requires FromNull(hashOf, list) && (forall s :: s in list ==> s in blocks) && k < |list|
    ensures BlockTree.DescendsAt(ParentsAt(hashOf, blocks), hashOf(list[k][..80]), k + 1)
  {
    hide ParentsAt, HaveHeaders, BlockTree.ProperHeaders;
    BlockInTree(hashOf, blocks, list[k]);
    if k == 0 {
      assert list[0][4..36] == NULL_HASH;
      assert BlockTree.DescendsAt(ParentsAt(hashOf, blocks), NULL_HASH, 0);
    } else {
      FollowersDescend(hashOf, blocks, list, k - 1);
    }
  }

  /** A chain of the tree is a list of blocks that follow one another. */
  lemma {:induction false} ChainFollows(hashOf: seq<Byte> -> Hash, blocks: seq<seq<Byte>>, chain: seq<seq<Byte>>)
    requires HaveHeaders(blocks) && BlockTree.ProperHeaders(HeadersAt(hashOf, blocks))
    requires HaveHeaders(chain) && forall s :: s in chain ==> s in blocks
    requires BlockTree.IsLongestChain(ParentsAt(hashOf, blocks), BlockTree.HashesOf(HeadersAt(hashOf, chain)))
    ensures chain != [] && FromNull(hashOf, chain)
  {
    hide ParentsAt, BlockTree.ProperHeaders, BlockTree.DescendsAt;
    var parents, hashes := ParentsAt(hashOf, blocks), BlockTree.HashesOf(HeadersAt(hashOf, chain));
    forall i {:trigger chain[i]} | 0 <= i < |chain|
      ensures |chain[i]| >= 80 && hashes[i] == hashOf(chain[i][..80]) && hashes[i] in parents
      ensures parents[hashes[i]] == chain[i][4..36]
    {
      BlockInTree(hashOf, blocks, chain[i]);
      assert hashes[i] == HeaderAt(hashOf, chain[i]).hash;
    }
    assert NULL_HASH == seq(32, _ => 0);
    assert chain != [] ==> chain[0][4..36] == NULL_HASH;
    forall i {:trigger chain[i]} | 0 < i < |chain| ensures chain[i][4..36] == hashOf(chain[i - 1][..80]) {
      var before := chain[i - 1];
      assert hashes[i - 1] == hashOf(before[..80]);
      assert parents[hashes[i]] == hashes[i - 1];
    }
  }

  /** A longest chain of the tree is a longest such list. */
  lemma {:induction false} LongestOfFiles(hashOf: seq<Byte> -> Hash, blocks: seq<seq<Byte>>, chain: seq<seq<Byte>>)
    requires HaveHeaders(blocks) && BlockTree.ProperHeaders(HeadersAt(hashOf, blocks))
    requires HaveHeaders(chain) && forall s :: s in chain ==> s in blocks
    requires BlockTree.IsLongestChain(ParentsAt(hashOf, blocks), BlockTree.HashesOf(HeadersAt(hashOf, chain)))
    ensures IsLongest(hashOf, blocks, chain)
  {
    hide ParentsAt, HaveHeaders, BlockTree.ProperHeaders, BlockTree.DescendsAt, FromNull;
    ChainFollows(hashOf, blocks, chain);
    forall other | FromNull(hashOf, other) && (forall s :: s in other ==> s in blocks)
      ensures |other| <= |chain|
    {
      if other != [] {
        HaveEighty(hashOf, other);
        FollowersDescend(hashOf, blocks, other, |other| - 1);
      }
    }
  }

  lemma HaveEighty(hashOf: seq<Byte> -> Hash, list: seq<seq<Byte>>)
    requires FromNull(hashOf, list)
    ensures forall i :: 0 <= i < |list| ==> |list[i]| >= 80
  {
  }

  /** Passes 1 to 3 and the traversal: the bytes of the blocks visited, in the order they are visited. */
  method VisitedBlocks(hashOf: seq<Byte> -> Hash, blocks: seq<seq<Byte>>, ghost rank: Hash -> nat)
    returns (chain: seq<seq<Byte>>)
    requires ProperBlocks(hashOf, blocks, rank)
    ensures IsLongest(hashOf, blocks, chain)
  {
    hide BlockTree.HeightOf, BlockTree.Acyclic, BlockTree.ParentsOf, BlockTree.IsLongestChain;
    var visited := BlockTree.LongestChain(HeadersAt(hashOf, blocks), rank);
    hide HeadersAt, HeaderAt, DataOf, HaveHeaders, BlockTree.ProperHeaders, IsLongest;
    DataRead(hashOf, blocks, visited);
    chain := DataOf(visited);
    LongestOfFiles(hashOf, blocks, chain);
  }

  /** Passes 1 to 4, for any order and repetition of the blocks in the files: the events are those of the plain
      ledger over a longest chain of the tree. Fails only where the program stops with a fatal error. */
  method EventsOfBlocks(hashOf: seq<Byte> -> Hash, blocks: seq<seq<Byte>>, ghost rank: Hash -> nat)
    returns (ok: bool, events: seq<Event>, chain: seq<seq<Byte>>)
    requires ProperBlocks(hashOf, blocks, rank)
    requires forall c :: IsLongest(hashOf, blocks, c) ==> CleanChain(hashOf, c)
    ensures IsLongest(hashOf, blocks, chain) && CleanChain(hashOf, chain)
    ensures ok <==> ApplyAll(map[], ChainTxs(hashOf, chain)).Next?
    ensures ok ==> events == AllEvents(map[], ChainTxs(hashOf, chain))
  {
    hide ProperBlocks, IsLongest, ApplyAll, AllEvents, BlockAt, ChainTxs;
    chain := VisitedBlocks(hashOf, blocks, rank);
    ok, events := EventsOfChain(hashOf, chain);
  }

  /** The same with allBalances: what is reported is what a longest chain leaves unspent, and it was right after
      every event on the way. */
  method BalancesOfBlocks(hashOf: seq<Byte> -> Hash, solve: seq<Byte> -> Option<Address>, blocks: seq<seq<Byte>>,
                          ghost rank: Hash -> nat)
    returns (ok: bool, sums: map<Address, nat>, chain: seq<seq<Byte>>)
    requires ProperBlocks(hashOf, blocks, rank)
    requires forall c :: IsLongest(hashOf, blocks, c) ==> CleanChain(hashOf, c)
    ensures IsLongest(hashOf, blocks, chain) && CleanChain(hashOf, chain)
    ensures ok <==> ApplyAll(map[], ChainTxs(hashOf, chain)).Next?
    ensures ok ==> RightThroughout(solve, {}, AllEvents(map[], ChainTxs(hashOf, chain)))
    ensures ok ==> Balanced(solve, {}, sums, CoinsOf(ApplyAll(map[], ChainTxs(hashOf, chain)).utxo))
  {
    hide ProperBlocks, IsLongest, ApplyAll, AllEvents, BlockAt, ChainTxs, Balanced, RightThroughout;
    chain := VisitedBlocks(hashOf, blocks, rank);
    ok, sums := BalancesOfChain(hashOf, solve, chain);
  }
}
