# Blockparser: models and proofs

This project models the parts of Blockparser that decide whether its answers are right, and
proves properties of the models. Blockparser reads the block files, builds the block tree and
finds the longest chain, streams the chain's transactions through an index of unspent outputs,
and hands events to analyses such as address balances and taint. Beside that it carries the
encodings and hashes that addresses and alternative chains need.

## What is modelled

* `BlockTree` - passes 1 to 3. Blocks are heap objects whose `next` field serves as a temporary
  way back while heights are computed and later as the longest chain. The headers' parent
  relation is taken to be acyclic (a ghost rank), no header hashes to the null hash, and at
  least one block descends from it.
* `Memory`, `Buffers`, `Allocator` - the paged allocator with its free lists, the tagged buffers
  for raw outputs and the pointer arrays of transactions. A pointer is a block and an offset.
* `TxFormat`, `Ledger`, `CleanChains`, `IndexState`, `Parser` - the byte grammar of transactions,
  the plain map of unspent outputs, which chains it takes, the relation between that map and the
  index, and the parse functions that keep it. Chains are clean in the sense the repository's documentation asks for: every input
  names an output that exists and is unspent, every transaction has an output, no hash repeats
  while it still has unspent outputs. A missing upstream transaction is the program's fatal
  error, and is modelled as failure.
* `Balances`, `Taint`, `Analyses` - two analyses over the events, alone and on top of the parser.
  The script solver is a parameter; amounts of taint are reals. What is said of taint over a
  run asks that transactions with one hash are the same transaction, which on a chain fails only
  if two different strings among the bytes of its own blocks hash alike.
* `LittleEndian`, `Wire` - the format of transactions and blocks as bytes, and a writer.
* `Passes` - all four passes, from the blocks as they lie in the files to the events and to the
  balances. Every longest chain of the files is taken to be clean.
* `Base58` - the in-place conversions and their buffer sizes.
* `Words`, `Blocks`, `Counters`, `BitStrings`, `Streaming`, `Sha256`, `Ripemd160`, `RootConstants`,
  `ShaVector`, `RipemdVector` - the two
  streaming hashes of the address path, with their unrolled compressions. One class stands for
  both hash objects; it applies the compression as a function, and each unrolled `Transform` is
  proved to compute that function.
* `KeccakStd`, `Keccak`, `Fugue`, `Blake`, `Shavite` - four optimised hash cores, each against
  the simple form it is meant to equal.
* `MultiSig` - recognition of multi-signature scripts and the packing of their keys.

parser.cpp holds two versions of the index merged into each other. The model follows the one
that keeps raw output bytes in pointer arrays (`TXChunk` and `mRawData`).

The hash of a byte string, the script solver, the mixing tables of Fugue, the AES round of
SHAvite, BLAKE's compression and the sort used on keys are function parameters.

## Model

| member | source | states |
|---|---|---|
| `BlockTree.HeightOfMeaning` | parser.cpp:666-711 | the height a block should get is the number of parent steps from the null hash, and is -1 exactly when there is no such number |
| `BlockTree.DescendsAtOneDepth` | parser.cpp:666-711 | no block lies at two distances from the null hash, so "its height" is well defined |
| `BlockTree.Tree.GetBlockHeader` | parser.cpp:726-763 | a new block is linked early exactly when its parent was read before it; the map then leads from the hash to the new block, blocks read before keep their links |
| `BlockTree.Tree.BuildBlockHeaders` | parser.cpp:787-841 | pass 1 keeps every link in agreement with the headers, for any order and any repetition of blocks |
| `BlockTree.Tree.FindBlockParent` | parser.cpp:647-663 | a late link is the block whose hash is the header's previous hash, or none if no such block was read |
| `BlockTree.Tree.WalkUp` | parser.cpp:675-691 | the walk up ends, reaches a labelled block with the way back stitched through `next`, or proves that the block does not descend from the null block |
| `BlockTree.Tree.WalkDown` | parser.cpp:693-710 | walking back labels exactly the path with rising heights, clears every scratch pointer on it and keeps the maximum |
| `BlockTree.Tree.ComputeBlockHeight` | parser.cpp:666-711 | after one call the block has its distance from the null block or -1, no earlier label has changed, and scratch fields of labelled blocks are clear |
| `BlockTree.Tree.ComputeBlockHeights` | parser.cpp:713-724 | for every order of the block map: every block has its distance or -1, every labelled block has `next` cleared, `gMaxHeight` bounds all heights and `gMaxBlock` attains it |
| `BlockTree.Tree.WireLongestChain` | parser.cpp:563-581 | after pass 3 `next` leads from the null block through the ancestors of the highest block, in order, and stops there |
| `BlockTree.Tree.FollowNext` | parser.cpp:563-581 | following `next` from the null block visits the blocks of the wired path, one per height, each once |
| `BlockTree.Tree.VisitedIsLongest` | parser.cpp:563-581 | what is visited is a chain from the null hash, parent to child, and no descent in the tree is longer |
| `BlockTree.LongestChain` | parser.cpp:563-724 | passes 1 to 3 and the traversal, for any order of the headers and of the map: the blocks visited are blocks that were read, and their hashes form a longest chain of the tree the headers describe |
| `Memory.PagedHeap.Alloc` | memory_manager.h:32-52 | a slot handed out was not in use; it belongs to the class asked for, and no existing block changes |
| `Memory.PagedHeap.Free` | memory_manager.h:53-54 | a freed slot goes on the free list of its class and leaves the live ones |
| `Memory.Pools.SlotsApart` | memory_manager.h:32-54 | under the invariant that `CarvedOk`, `RecycledOk`, `FreedOk` and `WithPageOk` keep, two live or free slots never overlap |
| `Memory.Pools.SlotPlace` | memory_manager.h:32-54 | under that invariant every slot lies inside one page, of its own class |
| `Memory.Pools.SlotsConserved` | memory_manager.h:32-54 | under that invariant slots carved from a class = live + on its free list |
| `Memory.Pools.CarvedOk` | memory_manager.h:36-44 | carving the next slot of a page keeps all pool invariants and gives a slot never handed out before |
| `Memory.Pools.RecycledOk` | memory_manager.h:46-50 | handing out the slot freed last keeps them, and that slot was not live |
| `Memory.Pools.FreedOk` | memory_manager.h:53-54 | putting a live slot on the free list of its class keeps them |
| `Memory.Pools.WithPageOk` | memory_manager.h:36-42 | a new page for a class, apart from all blocks there are, keeps them and changes no existing block |
| `Buffers.BuffersApart` | memory_manager.h:122-138 | live buffers, header cells included, never overlap |
| `Buffers.TakenSlotOk` | memory_manager.h:127-132 | writing the header into a pooled slot makes a buffer of the size asked for and disturbs no other |
| `Buffers.TakenBlockOk` | memory_manager.h:134-137 | the same for a size without a pool |
| `Buffers.FreedSlotOk` | memory_manager.h:139-147 | a buffer returned goes to the class that produced it, found from its header alone |
| `Buffers.BufferStore.Return` | memory_manager.h:139-150 | taking a buffer back forgets it and changes no other buffer |
| `Allocator.TxTagsCoherent` | memory_manager.h:60-92 | the header byte written for a size names the pool of that size when it is read back, or none for sizes without one |
| `Allocator.TxAllocator.AllocTX` | memory_manager.h:122-138 | a fresh buffer of the size asked for; all others keep their contents |
| `Allocator.PtrAllocator.AllocPtrs` | memory_manager.h:204-218 | a fresh array of the length asked for; all others keep their contents |
| `Allocator.PtrAllocator.CountNonNullPtrs` | memory_manager.h:232-244 | the number of non-null pointers, up to the length found in the header |
| `Allocator.NonNullZero` | memory_manager.h:232-244 | the count is zero exactly when every pointer is null |
| `Parser.LoadVarInt` | util.h:363-371 | the value and the end of a variable-length integer, in all four encodings |
| `TxFormat.OutputSame` | parser.cpp:295-301 | an output whose bytes were copied reads back as the same value and script, whatever follows the copy |
| `TxFormat.TxBounds` | parser.cpp:402-464 | a well-formed transaction takes at least ten bytes and ends within the data |
| `TxFormat.TxSame` | parser.cpp:402-464 | a transaction is a function of the very bytes that are hashed: wherever they stand and whatever follows, they parse to the same inputs and outputs |
| `Wire.VarIntExact` | util.h:363-371 | a count is read exactly where one of its four encodings stands, written out octet by octet, the lowest first |
| `Wire.OutputExact` | parser.cpp:221-264 | an output is read exactly where eight octets of value, low one first, and a script behind its length stand |
| `Wire.InputExact` | parser.cpp:309-399 | an input is read exactly where 32 octets of hash, four of index, a script and four octets of sequence number stand |
| `Wire.TxExact` | parser.cpp:402-464 | a transaction is read from some octets if and only if the format says they are that transaction: four octets of version, the inputs behind their count, the outputs behind theirs, four octets of lock time |
| `Wire.BlockExact` | parser.cpp:466-491 | a block is read as a list of transactions if and only if the format says so: eighty octets, the count, the transactions, each with the hash of all its own octets |
| `Wire.RoundTrip` | parser.cpp:402-464 | every transaction whose fields fit the format has octets, and they read back as that transaction whatever follows them |
| `Wire.BlockRoundTrip` | parser.cpp:466-491 | so has every list of such transactions behind any header, and reads back with their hashes |
| `Ledger.InputsPlay` | parser.cpp:340-362 | every edge reports the value and script its output was created with, and spends what no other edge spent |
| `Ledger.EdgesNameInputs` | parser.cpp:312-353 | the edges of a transaction are those of its inputs that are no coinbase, in their order, each with the value and script of the output spent, naming it, the transaction and the input |
| `Ledger.TxEventsAre` | parser.cpp:402-464 | the callbacks of a transaction one by one: its start, an edge for each spending input with the value and script of the output spent, each output with its number, its end |
| `Ledger.TxPlays` | parser.cpp:402-464 | replaying the events of one transaction turns the coins before it into the coins after it |
| `Ledger.EventsPlay` | parser.cpp:402-464 | over any clean run, replaying the events alone reproduces the plain ledger |
| `CleanChains.TakesClean` | parser.cpp:312-397 | said of the list of transactions alone: a run goes through if and only if every input in turn names an output made earlier and not named since, every transaction has an output, and no hash comes back while an output of it is left; what is unspent then is exactly what was made and not named since, each output as it was made |
| `CleanChains.MissesWhenStranded` | parser.cpp:327-332 | the fatal error comes if and only if some input, all before it paid, names a transaction of which nothing is left |
| `IndexState.Index.NulledOk` | parser.cpp:352-353 | freeing the buffer of a spent output and nulling its slot keeps the index in agreement with the ledger |
| `IndexState.Index.NullWhenSpent` | parser.cpp:354-355 | the non-null count is zero exactly when no output of the transaction is unspent |
| `IndexState.Index.DroppedOk` | parser.cpp:355-361 | erasing an entry all of whose outputs are spent keeps the index in agreement with the ledger |
| `IndexState.Index.StoredOk` | parser.cpp:295-301 | storing the next output of the transaction being built keeps the index in agreement with the ledger, and overwrites no unspent output |
| `IndexState.Index.Counts` | memory_manager.h:120-148 | live buffers = unspent outputs, live arrays = transactions in the index |
| `Parser.TxParser.ParseOutput` | parser.cpp:221-264 | ends where the output ends; reports one event, the creation from the block or the edge from the stored copy, and touches nothing when skipping |
| `Parser.TxParser.ParseInput` | parser.cpp:312-370 | spends what the input names in the plain ledger, a coinbase input nothing; the index still agrees; fails exactly when the upstream transaction has no unspent output |
| `Parser.TxParser.ParseInputs` | parser.cpp:375-397 | the same for a list, in order |
| `Parser.TxParser.ParseOutputs` | parser.cpp:269-307 | adds exactly the outputs of the transaction to the ledger and to the index |
| `Parser.TxParser.ParseTX` | parser.cpp:402-464 | the skipping and the full parse end at the same byte, so the bytes hashed are the bytes parsed; the full parse is the plain ledger's step and reports its events |
| `Parser.TxParser.ParseBlock` | parser.cpp:466-502 | a header, a count and that many transactions, applied in order |
| `Parser.TxParser.ParseChain` | parser.cpp:504-557 | over a whole chain from an empty index: the index agrees with the plain ledger after every block, and the events are the ledger's |
| `Parser.TxParser.LiveCounts` | memory_manager.h:119-230 | `UniqueTXTotalNumber` = unspent outputs and `UniquePtrsTotalNumber` = transactions in the index |
| `Parser.TxParser.KnownIffUnspent` | parser.cpp:327-332 | a transaction is in the index exactly when some output of it is unspent |
| `Balances.WrappedDifference` | cb/allBalances.cpp:294 | adding a negated 64-bit value to a sum that contains it leaves what was there before, for every 64-bit value |
| `Balances.BalancedIs` | cb/allBalances.cpp:236-311 | when the balances are right, an address has an entry exactly if it is one of those asked for, or none were, and its total modulo 2^64 is not zero; the entry is that number |
| `Balances.TotalIs` | cb/allBalances.cpp:236-311 | the total counts the value of each output that pays the address once |
| `Balances.ToInt64Is` | cb/allBalances.cpp:241-294 | the conversions to a signed 64-bit amount keep the 64 bits |
| `Balances.MovedBalanced` | cb/allBalances.cpp:236-311 | moving an amount keeps every address right when it is what the total paid to it moved by; an entry exists exactly when its sum is not zero |
| `Balances.CreditBalanced` | cb/allBalances.cpp:313-329 | an output created keeps all balances equal to the unspent totals |
| `Balances.DebitBalanced` | cb/allBalances.cpp:344-370 | an output spent keeps them equal; while the address paid has less than 2^64 in all, its entry is there and is no less than the amount, so the 64-bit sum does not wrap below zero |
| `Balances.ExactBelow64Bits` | cb/allBalances.cpp:294-310 | an address's sum is its exact total, and the address is in the map exactly when that total is positive, if and only if the total is below 2^64 |
| `Balances.WrapsAt64Bits` | cb/allBalances.cpp:294-310 | coins on which it fails: two outputs of 2^63 to one address are worth 2^64, and the address has no entry |
| `Balances.RunBalanced` | cb/allBalances.cpp:313-370 | after every event of a run the sums are right for the coins as they then are, and every edge takes its value from a sum that covers it, below 2^64 |
| `Balances.AllBalances.Move` | cb/allBalances.cpp:236-311 | the sums after the call: one address changed, erased if it reached zero; unsolvable or restricted scripts change nothing |
| `Balances.AllBalances.Handle` | cb/allBalances.cpp:313-370 | one event: the sums as `Move` leaves them, and they are those of the coins then unspent |
| `Balances.AllBalances.Run` | cb/allBalances.cpp:313-370 | the same of the object's records, at every moment of a run and at its end |
| `Analyses.BalancesOfChain` | cb/allBalances.cpp:236-370 | parser and analysis together, for every clean chain of blocks: right after every event, no wrap below zero on the way while totals stay below 2^64, and at the end what is reported per address is what the plain ledger says is unspent and paid to it |
| `Taint.StepOk` | cb/taint.cpp:134-204 | every callback keeps `txBad` <= `txTotal` and every stored taint in (0, 1] |
| `Taint.StepsOk` | cb/taint.cpp:134-204 | so along every run |
| `Taint.TaintAnalysis.Handle` | cb/taint.cpp:134-204 | the fields after a callback are those of the abstract step |
| `Taint.InputsMix` | cb/taint.cpp:187-204 | the inputs of a transaction move their value and their tainted value out of the unspent coins and into the mixture |
| `Taint.OutputsWeigh` | cb/taint.cpp:143-154 | the outputs carry the transaction's taint, in proportion to their value |
| `Taint.TxMixes` | cb/taint.cpp:134-204 | the tainted value of all unspent outputs after a transaction, from the value before it and the two totals |
| `Taint.InputsTaken` | cb/taint.cpp:187-204 | the inputs of a transaction lower the tainted total exactly when one of them spends an output of positive value of a transaction with a taint on record |
| `Taint.OneTx` | cb/taint.cpp:134-204 | in any state, a transaction that is no source and creates no value does not raise the tainted total if and only if it takes in taint, or no taint is on record for its hash, or its outputs are worth nothing - all of it told before the transaction |
| `Taint.MixesExactly` | cb/taint.cpp:134-204 | the law of the mixture, without the stored taint: tainted value out times value in is tainted value in times value out, for every transaction that is no source and takes in taint; so when all value comes out, all tainted value does |
| `Taint.OneMixed` | cb/taint.cpp:134-204 | what is on record after a transaction: sources and transactions that take in no taint change nothing; any other changes its own entry, which times the value taken in is the tainted value taken in |
| `Taint.OneSource` | cb/taint.cpp:134-204 | all that a source pays out is tainted, whatever it took in |
| `Taint.FirstSource` | cb/taint.cpp:134-204 | the bound by what the sources pay out is met by a source that starts a run |
| `Taint.RunTraced` | cb/taint.cpp:134-204 | in every reachable state, what is unspent was made by a transaction of the run, and a hash with a taint on record is a source or that of a transaction with an input that names a tainted transaction and an output of it worth something |
| `Taint.TaintNeverGrows` | cb/taint.cpp:134-204 | in every reachable state, sources earlier in the run included: a transaction that is no source and creates no value (a coinbase takes none in) never raises the tainted value of what is unspent, as long as hashes determine transactions; a hash that repeats once its outputs are spent is covered |
| `Taint.TaintOverRun` | cb/taint.cpp:134-204 | over any stretch of a run, tainted value grows by no more than what the sources in that stretch pay out, and so not at all without sources |
| `Taint.TaintFromSources` | cb/taint.cpp:134-204 | from the start of the chain: never more is tainted than the sources have paid out |
| `Analyses.TaintOfChain` | cb/taint.cpp:134-204 | parser and analysis together, over every clean chain: sources are reported wholly tainted and every transaction has mixed exactly what it took in; no transaction raised the tainted value unless it is a source or creates value; and if only sources create value, no more is tainted than they have paid out |
| `Analyses.HashesDetermineUnlessCollision` | parser.cpp:402-420 | two transactions of a chain with one hash are the same transaction, or two different strings among the bytes of the chain's own blocks hash alike |
| `Passes.VisitedBlocks` | parser.cpp:466-581 | passes 1 to 3 from the bytes: in the first block visited octets 4 to 35 are zero, in every other they are the hash of the first eighty octets of the block before it, and no list of blocks of the files that follow one another so is longer |
| `Passes.EventsOfBlocks` | parser.cpp:466-841 | passes 1 to 4, for any order and repetition of blocks in the files: the events reported are those of the plain ledger over such a longest list, and the program stops only where that list spends from an unknown transaction |
| `Passes.BalancesOfBlocks` | cb/allBalances.cpp:236-370 | the same with allBalances: right after every event, and at the end what the longest list leaves unspent |
| `Base58.MultiplyAdd` | crypto/base58.cpp:75-79 | one in-place pass computes value * factor + digit exactly, the carry being what did not fit |
| `Base58.EncodedRoom` | crypto/base58.cpp:69-70 | n * 138 / 100 + 1 base-58 digits hold every number of n bytes, for every n |
| `Base58.DecodedRoom` | crypto/base58.cpp:26-27 | n * 733 / 1000 + 1 bytes hold every number of n base-58 digits, for every n |
| `Base58.NoCarry` | crypto/base58.cpp:41-80 | so the carry is zero after every pass, where both assertions are commented out |
| `Base58.EncodeBase58` | crypto/base58.cpp:61-94 | the base-58 digits of the number, one `1` for each leading zero byte |
| `Base58.DecodeBase58` | crypto/base58.cpp:15-59 | accepts exactly the strings over the alphabet surrounded by optional white space, up to a NUL; gives the bytes of the word, and leaves the output alone when it refuses |
| `Base58.DecodeEncode` | crypto/base58.cpp:15-94 | decoding what was encoded gives every byte string back, leading zeros included |
| `Base58.EncodeDecode` | crypto/base58.cpp:15-94 | encoding what was decoded gives every string over the alphabet back |
| `Base58.EncodedIsWord` | crypto/base58.cpp:15-94 | what encoding produces is accepted by decoding, NUL and white space handling included |
| `Base58.WordUnique` | crypto/base58.cpp:17-48 | a string is a word in at most one way, so the decoded bytes are determined |
| `Base58.AlphabetIs` | crypto/base58.cpp:12-13 | the alphabet is the digits and letters but 0, I, O and l |
| `Base58.AlphabetIncreasing` | crypto/base58.cpp:12-13 | in ascending order |
| `Base58.CStringIs` | crypto/base58.cpp:15-48 | what is looked at is the string up to its first NUL |
| `Sha256.SameCh` | crypto/sha256.cpp:16 | the optimised choice function is that of section 4.1.2 of FIPS 180-4 |
| `Sha256.SameMaj` | crypto/sha256.cpp:17 | and the majority function |
| `Sha256.SameSums` | crypto/sha256.cpp:18-19 | and the two upper-case sigmas, written with shifts |
| `Sha256.SameSigmas` | crypto/sha256.cpp:20-21 | and the two lower-case sigmas |
| `Sha256.Round` | crypto/sha256.cpp:24-30 | changing two registers under rotated names is a step that shifts all eight |
| `Sha256.Extend` | crypto/sha256.cpp:68-116 | overwriting a schedule word in place gives the word sixteen later of the 64-word schedule |
| `Sha256.FirstSixteen` | crypto/sha256.cpp:51-66 | rounds 0 to 15 on the message words |
| `Sha256.NextSixteen` | crypto/sha256.cpp:68-117 | sixteen later rounds, the rolling window sliding along the schedule; used for rounds 16 to 63 |
| `Sha256.Transform` | crypto/sha256.cpp:46-127 | for every state and block, the state after the unrolled transformation is the one section 6.2.2 of FIPS 180-4 computes |
| `Sha256.OutputWords` | crypto/sha256.cpp:173-180 | the digest is the eight registers in order, high octet first |
| `RootConstants.CubeRoots0` | crypto/sha256.cpp:51-116 | the first four round constants are the fractions of the cube roots of the first four primes (section 4.2.2 of FIPS 180-4), and so the fifteen groups after them |
| `RootConstants.SquareRoots` | crypto/sha256.cpp:32-43 | the initial registers are the fractions of the square roots of the first eight primes (section 5.3.3) |
| `Words.AddBack` | crypto/sha256.cpp:24-30 | the addition used adds back what was subtracted, modulo 2^32 |
| `Words.WordBEOctets` | crypto/common.h:28-50 | the octets of a word, high one first; likewise low one first |
| `Streaming.Hasher.Write` | crypto/sha256.cpp:140-164 | for any sequence of calls the state and the buffer depend only on the concatenated bytes, also when the 64-bit count wraps |
| `Streaming.Hasher.Finalize` | crypto/sha256.cpp:166-181 | exactly message, 0x80, zeros and 64-bit length have been compressed, in whole blocks: nothing is left in the buffer |
| `Streaming.PadZerosLeast` | crypto/sha256.cpp:171 | 1 + ((119 - bytes % 64) % 64) octets are the 0x80 and the least number of zeros that leave room for the length (section 5.1.1 of FIPS 180-4) |
| `Streaming.PaddedWhole` | crypto/sha256.cpp:166-173 | every padded message is a whole number of 64-octet blocks |
| `Streaming.PaddedBits` | crypto/sha256.cpp:166-173 | bit by bit the padded message is the message, a one, the fewest zeros that bring it to a multiple of 512 bits, and the length field |
| `Streaming.LengthFieldExact` | crypto/sha256.cpp:170 | below 2^61 octets the length field reads back as the length in bits, in either byte order |
| `Blocks.AbsorbFill` | crypto/sha256.cpp:144-152 | data that completes the buffered block is absorbed as one block |
| `Blocks.AbsorbShort` | crypto/sha256.cpp:159-163 | data too short for it only extends what is buffered |
| `Sha256.Hash` | crypto/sha256.cpp:140-181 | however a message is cut into calls, the digest is SHA-256 of the whole |
| `ShaVector.AbcDigest` | crypto/sha256.cpp:46-181 | the digest of "abc" is the published one: with `Sha256.Hash`, a check of every constant, rotation and byte order of the definition |
| `Ripemd160.Round` | crypto/ripemd160.cpp:35-39 | changing two registers under rotated names is a step that shifts all five |
| `Ripemd160.Left1` | crypto/ripemd160.cpp:63-94 | round 1 of the left line takes the words and rotations the definition gives |
| `Ripemd160.Left5` | crypto/ripemd160.cpp:195-226 | and round 5, likewise the three between |
| `Ripemd160.Right1` | crypto/ripemd160.cpp:63-94 | round 1 of the right line, in the order 9i + 5 |
| `Ripemd160.Right5` | crypto/ripemd160.cpp:195-226 | and round 5, that order permuted four times, the functions backwards |
| `Ripemd160.Transform` | crypto/ripemd160.cpp:54-234 | for every state and block, the 160 unrolled steps and the final additions are the two lines of RIPEMD-160, words ordered by rho and pi |
| `Ripemd160.OutputWords` | crypto/ripemd160.cpp:272-285 | the digest is the five registers in order, low octet first |
| `Ripemd160.InitialOctets` | crypto/ripemd160.cpp:24-31 | the initial registers are the octets 01 23 45 67 89 ab cd ef, the same backwards, and f0 e1 d2 c3 |
| `Ripemd160.F2Bits` | crypto/ripemd160.cpp:17-21 | the bit function by the inputs that give a one; likewise the other four |
| `Ripemd160.RolRotates` | crypto/ripemd160.cpp:33 | the shifts are rotations to the left, for every amount used |
| `RootConstants.LineConstants` | crypto/ripemd160.cpp:41-52 | the constants of the two lines are 2^30 times the square and cube roots of 2, 3, 5 and 7 |
| `Ripemd160.Hash` | crypto/ripemd160.cpp:247-285 | however a message is cut into calls, the digest is RIPEMD-160 of the whole, the length little-endian |
| `RipemdVector.AbcDigest` | crypto/ripemd160.cpp:54-285 | likewise for RIPEMD-160, its word orders and rotations included |
| `KeccakStd.OffsetsTriangular` | h9/keccak.c:1016-1044 | the 24 rotation constants are the triangular numbers along the walk of section 3.2.2 of FIPS 202 |
| `KeccakStd.RoundConstantsDerived` | h9/keccak.c:136-149 | the 24 round constants are what the shift register of section 3.2.5 of FIPS 202 gives |
| `KeccakStd.Rot1Rotates` | h9/keccak.c:1016-1044 | rotation by one place to the left, on which the others are built |
| `KeccakStd.ChiLaneBits` | h9/keccak.c:1058-1068 | the lane function of chi by the inputs that give a one |
| `KeccakStd.ThetaAt` | h9/keccak.c:975-1014 | theta by coordinates: a lane takes the parity of the column before its own and the turned parity of the one after |
| `KeccakStd.PiAt` | h9/keccak.c:1139-1156 | pi by coordinates: lane (x + 3y, x) comes to (x, y) |
| `Keccak.ChiAt` | h9/keccak.c:1070-1135 | chi by coordinates: a lane and the two after it in its row |
| `KeccakStd.LaneOctets` | h9/keccak.c:183-188 | a lane is read from eight octets, the lowest first |
| `KeccakStd.LaneBack` | h9/keccak.c:1636-1642 | and written back the same way |
| `KeccakStd.AddBlockPlaces` | h9/keccak.c:183-188 | word x + 5y of a block goes into lane (x, y), and the lanes a block does not reach stay |
| `KeccakStd.SqueezedPlaces` | h9/keccak.c:1636-1644 | and comes out of there |
| `Keccak.DigestSizes` | h9/keccak.c:1607-1647 | digests of 28, 32, 48 and 64 octets at the four rates |
| `Keccak.ThetaSpreads` | h9/keccak.c:975-1014 | theta turns the kept mask of complemented lanes into another one |
| `Keccak.PiMoves` | h9/keccak.c:1048-1052 | which pi moves to the twelve lanes the comment lists |
| `Keccak.KhiInPlace` | h9/keccak.c:1070-1135 | chi with five complements in all: from that mask back to the six lanes kept complemented |
| `Keccak.ThetaInPlace` | h9/keccak.c:975-1014 | theta on lanes kept under any naming |
| `Keccak.RenamedByPi` | h9/keccak.c:1139-1156 | renaming the lanes does the work of pi |
| `Keccak.AllFollow` | h9/keccak.c:1139-1156 | each of the lists P0 to P8 is the one before it permuted by pi |
| `Keccak.KfElt` | h9/keccak.c:1392-1397 | one round of the optimised form is one round of Keccak-f[1600] under the mask, for every state and every naming |
| `Keccak.P8ToP0` | h9/keccak.c:1313-1347 | the 32 moves restore the first naming |
| `Keccak.KeccakFInPlace` | h9/keccak.c:1452-1467 | 24 rounds, eight at a time: Keccak-f[1600] of sections 3.2 and 3.3 of FIPS 202 under the mask |
| `Keccak.Context.Core` | h9/keccak.c:1569-1603 | for any split into calls the words stand for the sponge of everything absorbed |
| `Keccak.PaddingBits` | h9/keccak.c:1617-1634 | what closing appends is the extra bits, a one, the fewest zeros and a one, at bit level |
| `Keccak.Context.Close` | h9/keccak.c:1607-1647 | the digest of everything written and the extra bits, and a context as after initialisation |
| `Keccak.Hash` | h9/keccak.c:1525-1647 | for every message, split and extra bits, the digest is the sponge's |
| `Fugue.RenamedIsRotated` | h9/fugue.c:733-801 | turning the names by three is rotating the state by three words |
| `Fugue.TixSmall` | h9/fugue.c:413-420 | the words that an input word touches in the simple form of Fugue-256, written out; likewise `TixMedium` and `TixLarge` |
| `Fugue.CmixWords` | h9/fugue.c:431-438 | the six words that a column mix touches |
| `Fugue.StepIs` | h9/fugue.c:749-801 | a step of the simple form: twice rotation by three, column mix and word mix; `LongStepIs` three and four times |
| `Fugue.Turn36` | h9/fugue.c:431-438 | one column mix and word mix under turned names is rotation, column mix and word mix |
| `Fugue.Tix4` | h9/fugue.c:413-420 | the input word enters the renamed words as it enters the rotated ones |
| `Fugue.SmallStep4` | h9/fugue.c:788-797 | case 4 of fugue2_core, and so the four before: one step of the simple form, the names coming round |
| `Fugue.MediumStep3` | h9/fugue.c:847-856 | case 3 of fugue3_core, and so the three before |
| `Fugue.LargeStep2` | h9/fugue.c:902-913 | case 2 of fugue4_core, and so the two before |
| `Fugue.StepInPlace` | h9/fugue.c:749-913 | every case of every core is one step of the form that really rotates its state |
| `Fugue.Context.TakeWords` | h9/fugue.c:733-738 | the loop resumed at any case mixes in whole words until at most four octets are left |
| `Fugue.Context.Core` | h9/fugue.c:697-801 | for any split into calls: the words mixed in are the message's, all but the last one to four octets, which are held back with their count |
| `Fugue.Context.CloseEntry` | h9/fugue.c:933-954 | after closing exactly the zero-padded words and the 64-bit length have been mixed in, whatever the four octets never set contain |
| `Fugue.Absorbed` | h9/fugue.c:697-954 | for every message, split and extra bits, for all three state sizes |
| `Fugue.PaddedBits` | h9/fugue.c:933-954 | bit by bit what is absorbed is the message, its extra bits, the fewest zeros that fill the last word, and the length in 64 bits, high octet first |
| `Blake.Advance` | h9/blake.c:824-825 | the add-with-carry advances the two-word count by a block |
| `Blake.SetBack` | h9/blake.c:857-865 | each branch of the pre-biasing sets the count back by what the last block does not hold, borrow included |
| `Blake.MessageBlocks` | h9/blake.c:813-829 | while message blocks are compressed their counters are those of section 2.1.3 of the BLAKE proposal |
| `Blake.Context.Core` | h9/blake.c:801-836 | for any split into calls, what is compressed and buffered depends only on the octets |
| `Blake.Context.PreBias` | h9/blake.c:857-865 | after it the advance before the next block gives the counter the standard asks for: the message bits so far, or 0 |
| `Blake.Context.CloseInOne` | h9/blake.c:866-873 | padding and length in the block begun |
| `Blake.Context.CloseInTwo` | h9/blake.c:874-885 | padding and length in two blocks, the second with counter 0 |
| `Blake.Context.Close` | h9/blake.c:838-885 | every block of the padded message has met the standard's counter, for every length and 0 to 7 extra bits |
| `Blake.PadBits` | h9/blake.c:853-880 | the padding is the extra bits, a one, the fewest zeros and the bit that tells BLAKE-256 from BLAKE-224 |
| `Blake.GapLeast` | h9/blake.c:853-880 | the zeros are the fewest that bring everything to a multiple of 512 bits, or of 1024 |
| `Blake.LengthExact` | h9/blake.c:866-873 | the length field reads back as the count of bits, high word first, below 2^64, or 2^128 |
| `Blake.Hash` | h9/blake.c:905-994 | the same for the 64-bit form, with 128-octet blocks: one contract for both widths |
| `Shavite.LinearWord` | h9/shavite.c:216-227 | half of the schedule word by word: the one sixteen before and the one three before, added |
| `Shavite.NonlinearWords` | h9/shavite.c:177-215 | the other half, four words at a time: an AES round of turned words, the four before, and the counter at words 16, 17, 57, 58, 86, 87, 124 and 127 |
| `Shavite.Schedule` | h9/shavite.c:177-228 | the 144-word array, counters patched in at 16, 56, 84 and 124, is the key schedule |
| `Shavite.Compact` | h9/shavite.c:157-288 | the compact form computes the compression of the schedule |
| `Shavite.KeyExpandElt` | h9/shavite.c:141-149 | the AES round written to the renamed words and the five moves after it are the round of the turned words, in order |
| `Shavite.Expand14` | h9/shavite.c:463-467 | the counter enters in place, at words 57 and 58 of the schedule |
| `Shavite.Slide` | h9/shavite.c:408-422 | key words overwritten one after the other are the linear step of the schedule |
| `Shavite.Rounds4` | h9/shavite.c:443-507 | rounds 4 and 5: the sixteen key words hold the schedule's latest as the rounds go; likewise the other pairs |
| `Shavite.Unrolled` | h9/shavite.c:295-719 | the unrolled form computes the same compression as the compact one, for every state, counter and block |
| `MultiSig.GetOpPushData` | util.cpp:129-153 | steps over one push; an oversize header is stepped over but refused |
| `MultiSig.ReadKeys` | util.cpp:251-266 | keys are collected until something is no push; giving up means that no reading of the script is possible |
| `MultiSig.IsMultiSig` | util.cpp:231-283 | accepts exactly the multi-signature scripts, with their m, n and keys; the verdict is a property of the script's own bytes |
| `MultiSig.RecognisesAll` | util.cpp:231-283 | every m-of-n script, written out octet by octet with any of the four push headers, is recognised with its m, its n and the last twenty octets of each key |
| `MultiSig.AcceptsOnly` | util.cpp:231-283 | a script is accepted if and only if its octets are those of an m-of-n script, an oversize header before OP_n being let through |
| `MultiSig.BuiltAccepted` | util.cpp:231-283 | the script built of OP_m, keys of 20 to 75 octets each behind its length, OP_n and OP_CHECKMULTISIG is accepted with that m and n and the end of each key |
| `MultiSig.PushExact` | util.cpp:129-153 | a push is stepped over exactly where one of the four headers, its length low octet first, and as many octets stand, up to 524288 of them |
| `MultiSig.LeqByNumber` | util.cpp:181-198 | keys are ordered as the numbers they are, first octet heaviest |
| `MultiSig.PushesAgree` | util.cpp:251-266 | the pushes of a script can be read in one way only |
| `MultiSig.PackMultiSig` | util.cpp:200-228 | the bytes that are hashed: m, n, the sorted keys |
| `MultiSig.AscendingUnique` | util.cpp:181-213 | keys have one ascending order |
| `MultiSig.PackIgnoresOrder` | util.cpp:200-283 | two scripts that are accepted and push the same data in different orders, each piece at least twenty octets, are packed to the same bytes after m and n, whatever surrounds the scripts and whichever ascending sort is used |

## Left out

- File access, seeking, memory mapping, directories, progress and statistics output, signals and options: input and output. `findBlockParent` is modelled as the lookup of the header's previous hash in the complete map.
- The counters of late links and early misses, which are only printed.
- The alternative chains selected at compile time: the 80-byte header without a transaction time is fixed, and upstream transactions are always needed.
- Byte totals of the allocators (`UniqueTXTotalSize`, `UniquePtrsTotalSize`): what is freed is never subtracted. Only the live counts are modelled.
- The conversions of an output's size and of the number of outputs to `int`: sizes are taken below 2^31.
- An array of no pointers: allocPtrs indexes its table with the length minus one, so the model asks for at least one output, as the documented clean chains have.
- Pointer identity of hash keys: hashes are values, and the hash maps are maps keyed by value.
- The object behind an index entry and the copy of its hash: an entry is its pointer array, and the two further pools are not modelled.
- `--atBlock`, `--detailed`, interruption, and the block times and movement counts shown beside a balance.
- Floating point in the taint analysis: its numbers are reals, so rounding and the printing threshold are not captured.
- cb/closure.cpp, cb/rawdump.cpp and the other callbacks, which only report.
- Conversion between addresses and hashes and key compression in util.cpp, which rest on OpenSSL; two of these functions are damaged by a merge.
- crypto/sha256_btc.cpp and crypto/ripemd160_btc.cpp: the same code as the files modelled.
- The 32-bit and bit-interleaved builds of Keccak, and the unroll counts other than eight.
- The final rounds of Fugue after the last word: they rotate the state as the simple form does, so there are no two forms to compare. `CloseEntry` gives the state they start from, and does not model the initialisation that follows closing.
- The compression inside BLAKE and the 512-bit compression of SHAvite.
- Reading the words of a SHAvite block from its bytes: the input is the sixteen words.
- The other hashes under h9, whose buffering repeats these patterns.
- MultiSig.IsMultiSig: asks that twenty octets before the script and five after it can be read, as they can inside a transaction; the source reads them without asking. The verdict does not depend on them, but a key shorter than twenty octets is taken with octets that precede it.
- MultiSig.PackMultiSig: stops before the hash of the packed bytes. The comparison handed to the sort calls equal keys smaller; the model asks only for an ascending permutation.
- Streaming.Hasher.Write: buffers whose address plus length would pass the end of the address space are not considered.
