# Block segmentation of the Brotli encoder (Go port), in Dafny

This project models the part of the Go Brotli encoder that decides how a
meta-block is segmented before entropy coding. It covers three source files:
metablock.go, block_splitter.go and cluster.go.

- **The greedy context block splitter** (`ContextBlockSplitter`) cuts the
  literal stream into blocks. It gives each block one of at most
  `256 / num_contexts` block types, deciding by the entropy gained from
  merging the open block into the last or second-last type. The model has
  two layers:
  - a pure state machine (`ContextSplitterSpec`);
  - a class over the same fields (`ContextSplitters`). Each of its methods
    is proved to perform exactly one transition of that state machine.

  Lemmas about the state machine prove the following:
  - the arrays are never indexed out of bounds;
  - adjacent blocks never share a type;
  - the type budget holds;
  - every block is at least the minimum block size;
  - the recorded lengths add up to the symbols added plus the padding of
    the last block;
  - the entropy cache always holds the entropies of the last two types'
    histograms;
  - the "second last type" branch only runs once two blocks exist.
- **The greedy driver** (`BrotliBuildMetaBlockGreedyInternal`) walks the
  commands and the ring buffer. It hands command codes, literals (with their
  static context when there are several) and explicit distance codes to
  three splitters, then builds the literal context map (`MapStaticContexts`).
  The plain splitters are sinks that record what they receive. The model
  proves three things:
  - the sinks receive exactly the command codes, the literals and the
    distance codes, in stream order;
  - the literal split, the literal histograms and the context map left in the
    `MetaBlockSplit` are those the state machine predicts;
  - the blocks of that split cover all the literals.
- **Distance parameters:**
  - `BrotliInitDistanceParams`, with its 32-bit wrap-around and its
    large-window table;
  - the cost of coding the distances under candidate parameters
    (`ComputeDistanceCost`);
  - the search of `BrotliBuildMetaBlock` over postfix bits and direct codes;
  - the rewrite of the commands' distance prefixes
    (`RecomputeDistancePrefixes`).

  The histogram the cost prices is proved to be that of the distance codes
  the rewrite produces.
- **Array extraction for the non-greedy splitter:** `CountLiterals`,
  `CopyLiteralsToByteArray` (ring wrap-around included), the
  command-prefix and distance-prefix loops of `BrotliSplitBlock`, `MyRand`
  and `BrotliInitBlockSplit`.
- **Cluster helpers:** the merge-pair ordering `HistogramPairIsLess`, proved
  a strict weak order, and `ClusterCostDiff`.
- **Context maps:** context maps are those of section 7.3 of RFC 7932.
  - The static map built by `MapStaticContexts` gives every block type its
    own group of histograms.
  - The descending broadcast of `BrotliBuildMetaBlock` copies each type's
    cluster id to all 64 of its contexts. The model proves that the
    order matters: the same steps taken in ascending order give type 1
    the id of type 0 whenever those two ids differ.

Floating-point estimates (`BitsEntropy`, the population cost, `FastLog2`) are
arbitrary functions on reals passed as parameters. Every property holds
whichever branch those estimates select.

## Model

| member | source | states |
|---|---|---|
| Common.DistancePrefixSplits | metablock.go:159-160 | a distance prefix is its extra-bit count times 1024 plus its 10-bit distance code, so the `& 0x3FF` and `>> 10` reads lose nothing |
| Common.SumAddCounts | metablock.go:396-397 | adding one histogram into another adds their totals |
| BlockSplits.BlockSplit.Init | block_splitter.go:113-120 | a fresh split has no types, no blocks and empty type and length slices |
| BlockSplits.BlockSplit.EnsureTypesCapacity | metablock.go:328 | the types slice grows to at least `n`, keeps its old entries, adds zeros and changes nothing else |
| BlockSplits.BlockSplit.EnsureLengthsCapacity | metablock.go:329 | the lengths slice grows to at least `n`, keeps its old entries, adds zeros and changes nothing else |
| BlockSplitter.CountLiterals | block_splitter.go:59-69 | the count is the sum of the insert lengths of the first `num_commands` commands |
| BlockSplitter.InsertTotalAppend | block_splitter.go:59-69 | the literal count of two command sequences together is the sum of their counts |
| BlockSplitter.InsertTotalPrefix | block_splitter.go:59-69 | a prefix of the commands never holds more literals than the whole |
| BlockSplitter.Run | block_splitter.go:76-88 | an insert run of `len` bytes read from a stream position is, byte by byte, the ring byte at that position plus the offset |
| BlockSplitter.Literals | block_splitter.go:71-92 | the literals of a command sequence number exactly its literal count |
| BlockSplitter.LiteralAt | block_splitter.go:71-92 | literal `q` of command `i` sits right after the literals of the commands before `i`, and is the ring byte at the stream position of that literal |
| BlockSplitter.LiteralsPrefix | block_splitter.go:71-92 | the literals of a prefix of the commands are a prefix of all the literals |
| BlockSplitter.CopyBytes | block_splitter.go:79 | Go's `copy`: the `n` bytes land at `at` and every other byte of the destination is unchanged |
| BlockSplitter.CopyRun | block_splitter.go:76-88 | one command's run, split at the ring's end when it wraps, lands at `pos` as the ring bytes from `from_pos` on, every other output byte is unchanged, and the ring offset plus the remaining length is the old offset plus the run length, less the ring size when the run wrapped |
| BlockSplitter.CopyLiteralsToByteArray | block_splitter.go:71-92 | the first `literals_count` bytes of the output are exactly the literals of the commands in stream order, read around the ring, and the bytes after them are untouched |
| BlockSplitter.CopyStep | block_splitter.go:75-91 | copying one more command's run extends the copied prefix to the literals of one more command |
| BlockSplitter.RunAtRing | block_splitter.go:73 | reading a run from a stream position is reading it from that position's ring offset (`offset & mask`) |
| BlockSplitter.WrapKeepsRing | block_splitter.go:90 | truncating to uint32 keeps the residue modulo a power-of-two ring of at most 2^32 bytes |
| BlockSplitter.NextRingPos | block_splitter.go:90 | the next `from_pos`, computed on uint32 and masked, is the ring offset of the stream position after the command's insert run and copy |
| BlockSplitter.CommandPrefixes | block_splitter.go:142-148 | the code array has one entry per command, the command's joint insert-and-copy code |
| BlockSplitter.DistanceCodes | block_splitter.go:162-169 | there are at most as many distance codes as commands, each below 1024 |
| BlockSplitter.DistanceCodesCount | block_splitter.go:162-169 | there is exactly one distance code per command that has a copy and an explicit distance |
| BlockSplitter.DistanceCodesPrefix | block_splitter.go:162-169 | the distance codes of a prefix of the commands are a prefix of all the codes |
| BlockSplitter.DistanceCodeAt | block_splitter.go:165-167 | a command with an explicit distance puts its masked distance prefix at index `j`, the number of such commands before it |
| BlockSplitter.DistancePrefixes | block_splitter.go:157-169 | `j` is the number of commands with an explicit distance, and the first `j` entries are their codes, in order |
| BlockSplitter.SplitBlock | block_splitter.go:127-176 | the three arrays handed to the splitters are the literals in stream order, the command codes and the distance codes |
| BlockSplitter.PrevNextSeed | block_splitter.go:94-99 | the step `seed *= 16807` on uint32 is invertible, so no two seeds collide |
| BlockSplitter.NextSeedParity | block_splitter.go:94-99 | the step keeps the seed's parity, so the initial seed 7 stays odd |
| BlockSplitter.NextSeedNonZero | block_splitter.go:94-99 | a non-zero seed never becomes zero |
| BlockSplitter.RandState.MyRand | block_splitter.go:94-99 | the seed is multiplied by 16807 modulo 2^32, stored, and returned |
| Cluster.Span | cluster.go:36 | `idx2 - idx1` on uint32: the difference when ordered, the difference plus 2^32 otherwise |
| Cluster.IsLessIsLexicographic | cluster.go:31-37 | pairs rank by descending cost difference, and on equal cost differences by descending index span |
| Cluster.IsLessIrreflexive | cluster.go:31-37 | no pair is less than itself |
| Cluster.IsLessAsymmetric | cluster.go:31-37 | two pairs are never each less than the other |
| Cluster.IsLessTransitive | cluster.go:31-37 | the ordering is transitive |
| Cluster.IncomparableTransitive | cluster.go:31-37 | incomparability is transitive: the ordering is a strict weak order |
| Cluster.IncomparableIff | cluster.go:31-37 | two pairs are incomparable exactly when they agree on cost difference and span |
| Cluster.IsLessIgnoresCostCombo | cluster.go:31-37 | the combined cost plays no part in the ordering |
| Cluster.WrappedSpanRanksFirst | cluster.go:36 | with indices below 2^31, a pair whose indices are reversed outranks every ordered pair of equal cost difference, because its span wraps |
| Cluster.ClusterCostDiffSymmetric | cluster.go:40-43 | the merge cost does not depend on the order of the two clusters |
| Cluster.ClusterCostDiffEmpty | cluster.go:40-43 | merging with an empty cluster costs nothing |
| Cluster.ClusterCostDiffNonPositive | cluster.go:40-43 | with a nondecreasing logarithm the merge cost is never positive |
| DistanceSearch.Bit32 | metablock.go:94 | `1 << s` on uint32 is 2^s for shift counts below 32 |
| DistanceSearch.LargeWindowBound | metablock.go:97 | the large-window bound table plus one postfix step stays within 36 |
| DistanceSearch.InitDistanceParams | metablock.go:85-115 | the parameters record the given postfix-bit count and direct-code count |
| DistanceSearch.StandardParams | metablock.go:93-94 | for a standard window and parameters in range nothing wraps: the largest distance is `ndirect + 2^(npostfix+26) - 2^(npostfix+2)` and the alphabet has `16 + ndirect + 48 * 2^npostfix` symbols |
| DistanceSearch.LargeWindowCap | metablock.go:96-111 | in the large-window middle range the largest distance never exceeds the largest allowed distance, and equals it exactly when the direct-code count reaches the table bound |
| DistanceSearch.LargeWindowHigh | metablock.go:105-107 | from the table bound plus one postfix step upwards (up to 120 direct codes) the large-window largest distance is `(3 << 29) - 4` plus the codes above the bound; it does not wrap and exceeds the largest allowed distance |
| DistanceSearch.ComputeDistanceCost | metablock.go:132-166 | the cost is absent exactly when some distance exceeds what the new parameters can code; otherwise it is the population cost of the recoded distance-code histogram plus the total extra bits |
| DistanceSearch.CostPrefixStep | metablock.go:145-162 | one more command extends feasibility, the histogram and the extra bits by that command's terms |
| DistanceSearch.Recoded | metablock.go:124-129 | recoding keeps lengths and command code, gives a command with a distance the prefix and the extra bits that encoding its restored distance under the new parameters yields, and leaves the command alone when it has no distance or the coding is unchanged |
| DistanceSearch.RecodeAll | metablock.go:117-130 | every command is recoded, and the count is kept |
| DistanceSearch.RecomputeDistancePrefixes | metablock.go:117-130 | the first `num_commands` commands are replaced in place by their recoded forms, and the rest are untouched |
| DistanceSearch.CostHistogramIsRecodedCodes | metablock.go:117-166 | the histogram ComputeDistanceCost prices is the multiset of distance codes the commands carry after RecomputeDistancePrefixes |
| DistanceSearch.CostHistogramSize | metablock.go:145-161 | the histogram has one entry per command with an explicit distance |
| DistanceSearch.CostHistogramUnchanged | metablock.go:141-149 | under the parameters in use every distance fits, and the histogram is that of the commands' own codes |
| DistanceSearch.SameCodingCost | metablock.go:141-149 | parameters with the original postfix bits and direct-code count make every distance fit and give the same histogram and extra bits as the original parameters, so the same cost |
| DistanceSearch.Candidate | metablock.go:189-192 | the candidate has `npostfix` postfix bits and `ndirect_msb << npostfix` direct codes, initialised as BrotliInitDistanceParams does |
| DistanceSearch.SearchDistanceParams | metablock.go:180-220 | the chosen parameters are the original ones or a candidate of the search, they can code every distance of the meta-block, and their cost is never above the cost of the original parameters, whatever the cost estimate |
| MetaBlocks.StaticContextMap | metablock.go:487 | the static context map has `num_types << 6` entries |
| MetaBlocks.Broadcast | metablock.go:261-270 | the broadcast keeps the map's size |
| MetaBlocks.FlatIndex | metablock.go:494 | index `(i << 6) + j` addresses type `i`, context `j` |
| MetaBlocks.StaticContextMapEntry | metablock.go:490-496 | the entry for type `i` and context `j` is `uint32(i * num_contexts) + static_context_map[j]` |
| MetaBlocks.StaticContextMapOwnsSlots | metablock.go:490-496 | without uint32 wrap-around, every entry of type `i` lies in `[i * num_contexts, (i + 1) * num_contexts)`, so distinct types never share a histogram |
| MetaBlocks.BroadcastEntry | metablock.go:263-268 | after the broadcast every context of type `i` maps to the cluster id that was at index `i` |
| MetaBlocks.AscendingBroadcastLosesIds | metablock.go:263-268 | the descending order matters: for every map of at least two types whose first two ids differ, the same steps in ascending order map type 1 to type 0's id, where the broadcast keeps type 1's own |
| MetaBlocks.MetaBlockSplit.Init | metablock.go:50-64 | three empty splits, empty context maps and no histograms |
| MetaBlocks.MetaBlockSplit.MapStaticContexts | metablock.go:484-497 | the new literal context map has `num_types << 6` entries equal to the static context map; the distance map and the histogram counts are unchanged |
| MetaBlocks.MetaBlockSplit.BroadcastContextMap | metablock.go:261-270 | in place, the map becomes the broadcast of its old contents |
| MetaBlocks.FillType | metablock.go:266-268 | the 64 entries of type `i` receive the id at index `i`, and nothing else changes |
| ContextSplitterSpec.ClearSlots | metablock.go:337 | exactly the `n` histograms from `from` on become empty |
| ContextSplitterSpec.MergeSlots | metablock.go:433-438 | each of the `n` destination histograms receives the sum with the matching current histogram, the current histograms are cleared, and all others are unchanged |
| ContextSplitterSpec.MergeSlotsKeeps | metablock.go:433-438 | a histogram outside both merged ranges is unchanged |
| ContextSplitterSpec.SetRows | metablock.go:410-413 | row 0 of the cache takes the new last-type entropies, row 1 the second-last ones, and entries past both rows are kept |
| ContextSplitterSpec.SlotEntropies | metablock.go:389-392 | entry `i` is the entropy of histogram `from + i` over the alphabet |
| ContextSplitterSpec.MergedHistograms | metablock.go:393-397 | entry `i` is the current histogram for context `i` added to the candidate type's |
| ContextSplitterSpec.MergedEntropies | metablock.go:398 | entry `i` is the entropy of that merged histogram |
| ContextSplitterSpec.Padded | metablock.go:353-355 | the padded block size is at least the minimum block size and at least the open block's size |
| ContextSplitterSpec.GainsAgree | metablock.go:399 | two gain sums over the same entropies agree when the cached entries they read agree |
| ContextSplitterSpec.DiffsAgreeWithOneType | metablock.go:389-401 | with a single type both merge gains are equal, since both remembered slots and both cache rows describe type 0 |
| ContextSplitterSpec.SecondLastNeedsTwoBlocks | metablock.go:425-427 | the "second last type" branch is only taken once two types, hence two blocks, exist, so `types[num_blocks-2]` is in bounds |
| ContextSplitterSpec.SlotsOrdered | metablock.go:409 | the histogram groups of distinct types do not overlap |
| ContextSplitterSpec.LastSlotsDisjoint | metablock.go:430-437 | once two blocks exist, the histogram groups of the last two types are disjoint |
| ContextSplitterSpec.FirstRowsCached | metablock.go:365-368 | after the first block both cache rows hold the entropies of type 0's histograms |
| ContextSplitterSpec.NewTypeRowsCached | metablock.go:410-413 | after a new type the cache rows hold the entropies of the new type and of the former last type |
| ContextSplitterSpec.SecondLastRowsCached | metablock.go:430-437 | after merging into the second-last type the cache rows hold the entropies of the two swapped types' histograms |
| ContextSplitterSpec.MergeLastRowsCached | metablock.go:448-453 | after merging into the last type row 0 holds its merged entropies, and row 1 does too while there is one type |
| ContextSplitterSpec.FirstBlockKeeps | metablock.go:357-377 | the first block keeps every invariant and records exactly the padded block size |
| ContextSplitterSpec.NewTypeSizes | metablock.go:403-424 | a new type keeps every array size |
| ContextSplitterSpec.NewTypeBlocks | metablock.go:403-424 | a new type keeps blocks in range, within the type budget, with adjacent types distinct and at least the minimum length |
| ContextSplitterSpec.NewTypeShape | metablock.go:403-424 | a new type keeps the histogram-group bookkeeping |
| ContextSplitterSpec.NewTypeCache | metablock.go:403-424 | a new type keeps the entropy cache |
| ContextSplitterSpec.NewTypeKeeps | metablock.go:403-424 | a new type keeps every invariant and records exactly the padded block size |
| ContextSplitterSpec.SecondLastShape | metablock.go:425-443 | merging into the second-last type keeps sizes, blocks and group bookkeeping |
| ContextSplitterSpec.SecondLastCache | metablock.go:425-443 | merging into the second-last type keeps the entropy cache |
| ContextSplitterSpec.SecondLastKeeps | metablock.go:425-443 | merging into the second-last type keeps every invariant and records exactly the padded block size |
| ContextSplitterSpec.MergeLastShape | metablock.go:444-463 | merging into the last block keeps sizes, blocks and group bookkeeping, and the target grows by one minimum block size per merge after the first |
| ContextSplitterSpec.MergeLastCache | metablock.go:444-463 | merging into the last block keeps the entropy cache |
| ContextSplitterSpec.MergeLastKeeps | metablock.go:444-463 | merging into the last block keeps every invariant and adds exactly the padded block size to its length |
| ContextSplitterSpec.EmitIsFirstBlock | metablock.go:357 | with no blocks the first-block branch is taken |
| ContextSplitterSpec.EmitIsNewType | metablock.go:403 | when the decision is a new type, that branch is taken |
| ContextSplitterSpec.EmitIsSecondLast | metablock.go:425 | when the decision is the second-last type, that branch is taken, and two blocks and two types exist |
| ContextSplitterSpec.EmitIsMergeLast | metablock.go:444 | when the decision is to merge with the last block, that branch is taken |
| ContextSplitterSpec.EmitKeeps | metablock.go:357-466 | whichever branch the entropy estimates select, the invariants hold afterwards and the lengths grow by exactly the padded block size |
| ContextSplitterSpec.BlocksBelowMax | metablock.go:307 | blocks of at least the minimum size over at most `num_symbols` symbols number fewer than `max_num_blocks` |
| ContextSplitterSpec.RoomForNextBlock | metablock.go:307 | while the recorded lengths stay within the symbol count there is room for one more block and one more histogram group |
| ContextSplitterSpec.FinishBlockKeeps | metablock.go:347-472 | FinishBlock keeps the invariants, empties the open block and makes the lengths account for the symbols plus the padding; a non-final call leaves the splitter ready, a final one hands over a well-formed split |
| ContextSplitterSpec.FinalStepKeeps | metablock.go:468-471 | the final call's bookkeeping (histogram count and block count) yields a well-formed final split |
| ContextSplitterSpec.TargetStepReady | metablock.go:476-481 | finishing a block that reached its target leaves the splitter ready for the next symbol |
| ContextSplitterSpec.TargetAtLeastMin | metablock.go:460-462 | the target block size never drops below the minimum block size |
| ContextSplitterSpec.RowsCachedAbove | metablock.go:477 | changes above the last two types' histogram groups keep the entropy cache valid |
| ContextSplitterSpec.CountedKeeps | metablock.go:477-478 | counting a symbol in the open block keeps the invariants and keeps the block within its target |
| ContextSplitterSpec.AddSymbolKeeps | metablock.go:476-481 | AddSymbol keeps the splitter ready, accounts for one more symbol, and below the target only grows the open block |
| ContextSplitterSpec.InitReady | metablock.go:306-341 | a freshly initialised splitter is ready for its first symbol |
| ContextSplitterSpec.FeedAppend | metablock.go:476-481 | feeding one more symbol is one more AddSymbol |
| ContextSplitterSpec.FeedKeeps | metablock.go:476-481 | any stream of in-range symbols within the symbol count is accepted symbol by symbol and leaves the splitter ready |
| ContextSplitterSpec.SymbolsOkConcat | metablock.go:476 | a concatenated stream is in range exactly when both parts are |
| ContextSplitterSpec.FeedConcat | metablock.go:476-481 | feeding a concatenation is feeding its parts one after the other |
| ContextSplitterSpec.SplitStreamCovers | metablock.go:306-481 | after initialise, feed and final finish, the split is well formed and its lengths cover the stream, overshooting by at most the minimum block size |
| ContextSplitterSpec.ShortStreamOneBlock | metablock.go:353-377 | a stream shorter than the minimum block size becomes one block of type 0 padded to the minimum block size |
| ContextSplitters.SlotIsProduct | metablock.go:409 | the first histogram of type `t` is `t * num_contexts` |
| ContextSplitters.SlotOffset | metablock.go:469 | the computed product is type `t`'s first histogram index |
| ContextSplitters.NextSlotsFit | metablock.go:373-375 | when the next histogram group starts below the histogram count, it fits in the array |
| ContextSplitters.ClearSlotsOfEmpty | metablock.go:333-337 | clearing histograms that are already empty changes nothing |
| ContextSplitters.InitSizes | metablock.go:307-332 | the computed `max_num_blocks`, `max_num_types` and histogram count are those of the state machine |
| ContextSplitters.GainsGrow | metablock.go:399 | one more context adds its merged entropy, less the current and cached entropies, to the running gain |
| ContextSplitters.MergeCosts | metablock.go:389-401 | the loop yields each context's current entropy, the histograms merged with both remembered types, their entropies, and the two summed gains the decision uses |
| ContextSplitters.SumGains | metablock.go:399 | the loop sums, in context order, each context's merged entropy less its current and cached entropies |
| ContextSplitters.NewTypeValues | metablock.go:405-420 | the new type's first histogram index, the shifted cache rows, and the next group cleared when it exists |
| ContextSplitters.ClearHistograms | metablock.go:337 | exactly the `n` histograms from `from` on are cleared |
| ContextSplitters.FirstRows | metablock.go:365-368 | both cache rows receive the entropies of the first histogram group |
| ContextSplitters.NewTypeRows | metablock.go:410-413 | row 0 moves to row 1, and the current entropies become row 0 |
| ContextSplitters.MergeIntoSecondLast | metablock.go:433-438 | the second-last type's histograms receive the merged ones, the current ones are cleared, and the cache rows are updated as the branch demands |
| ContextSplitters.MergeIntoLast | metablock.go:448-456 | the last type's histograms receive the merged ones, the current ones are cleared, and row 0 (and row 1 with one type) takes the merged entropies |
| ContextSplitters.ContextBlockSplitter.Init | metablock.go:306-341 | the configuration has type budget `256 / num_contexts`; the split's slices are grown to `max_num_blocks`, all histograms are empty, and the state is the state machine's initial state |
| ContextSplitters.ContextBlockSplitter.LaterBlock | metablock.go:378-466 | with a block already present, the prices and the three-way decision lead to exactly the branch the state machine takes |
| ContextSplitters.ContextBlockSplitter.FinishBlock | metablock.go:347-472 | the new state is FinishBlock of the state machine applied to the old state |
| ContextSplitters.ContextBlockSplitter.FirstBlockStep | metablock.go:357-377 | performs exactly the first-block transition |
| ContextSplitters.ContextBlockSplitter.NewTypeStep | metablock.go:403-424 | performs exactly the new-type transition |
| ContextSplitters.ContextBlockSplitter.SecondLastStep | metablock.go:425-443 | performs exactly the second-last-type transition |
| ContextSplitters.ContextBlockSplitter.MergeLastStep | metablock.go:444-463 | performs exactly the merge-with-last transition |
| ContextSplitters.ContextBlockSplitter.AddSymbol | metablock.go:476-481 | the new state is AddSymbol of the state machine applied to the old state |
| GreedyMetaBlock.SymbolSink.AddSymbol | metablock.go:524 | the plain splitter receives the symbol after the ones before it |
| GreedyMetaBlock.SymbolSink.FinishBlock | metablock.go:555-556 | the final block is finished and the received symbols are kept |
| GreedyMetaBlock.RunPairs | metablock.go:525-537 | a run yields one (literal, bucket) pair per literal, each a byte with a bucket below `num_contexts` |
| GreedyMetaBlock.LiteralPairs | metablock.go:521-547 | the context splitter receives one in-range pair per literal of the commands |
| GreedyMetaBlock.LiteralPairsAreLiterals | metablock.go:521-547 | the literals given to the context splitter are, in order, the literals CopyLiteralsToByteArray extracts |
| GreedyMetaBlock.RunPairsAreRun | metablock.go:525-537 | the literal of pair `k` of a run is the ring byte at the run's position plus `k` |
| GreedyMetaBlock.CommandCodes | metablock.go:524 | the command splitter receives each command's joint code, one per command, in order |
| GreedyMetaBlock.FeedPlainRun | metablock.go:525-537 | with one context the plain literal splitter receives the run's ring bytes, and the two previous bytes become its last two literals |
| GreedyMetaBlock.FeedContextRun | metablock.go:525-537 | with several contexts the context splitter's state becomes the state machine's state fed with the run's (literal, static bucket) pairs |
| GreedyMetaBlock.ContextRunStep | metablock.go:526-536 | one literal is added with the bucket of the two bytes before it and becomes the previous byte |
| GreedyMetaBlock.RunHistoryStep | metablock.go:534-535 | after one more literal, it is the previous byte and the former previous byte moves to second place |
| GreedyMetaBlock.FeedRunStep | metablock.go:530-531 | each literal of a run is accepted, and feeding it is one AddSymbol with its static bucket |
| GreedyMetaBlock.RunPairsStep | metablock.go:530-531 | one more literal appends its pair, with the bucket of the history before it |
| GreedyMetaBlock.CodesStep | metablock.go:524-545 | one more command appends its code, and its distance code when it has an explicit distance |
| GreedyMetaBlock.HistoryStep | metablock.go:539-542 | after a command the stream position has passed its run and copy, and a non-empty copy re-reads the two previous bytes from the ring |
| GreedyMetaBlock.LiteralsStep | metablock.go:525-537 | one more command appends its insert run to the literals |
| GreedyMetaBlock.LiteralPairsStep | metablock.go:521-537 | one more command appends its run's pairs and adds its insert length to the literal count |
| GreedyMetaBlock.CopyCommand | metablock.go:539-546 | the position passes the copy; a non-empty copy re-reads the history and, with an explicit distance, gives the distance splitter the masked distance code |
| GreedyMetaBlock.PlainCommand | metablock.go:521-547 | one command with one context extends the three received sequences, the position and the history to those of one more command |
| GreedyMetaBlock.ContextCommand | metablock.go:521-547 | one command with several contexts does the same, feeding its run's pairs to the context splitter |
| GreedyMetaBlock.ContextInsertRun | metablock.go:525-537 | a run fed after the pairs `done` leaves the state the state machine gives for `done` followed by the run's pairs |
| GreedyMetaBlock.InsertTotalStep | metablock.go:508-510 | the literals of a command prefix plus the next run stay within the total literal count |
| GreedyMetaBlock.LiteralConfig | metablock.go:515 | the splitter of the greedy pass (256 symbols, minimum block 512, threshold 400, the literal count as symbol count) is an accepted configuration |
| GreedyMetaBlock.GreedyLiteralSplitCovers | metablock.go:499-561 | the literal split of the greedy pass is well formed, covers all literals with at most 512 symbols of padding, and was fed exactly the literals in stream order |
| GreedyMetaBlock.WalkPlain | metablock.go:521-547 | with one context, the three splitters receive exactly the command codes, the distance codes and the literals |
| GreedyMetaBlock.WalkContext | metablock.go:521-547 | with several contexts the command and distance splitters receive their codes, and the context splitter ends ready, in the state the state machine gives for all the literal pairs |
| GreedyMetaBlock.ContextLiterals | metablock.go:512-552 | the literal split and literal histograms left in the meta-block split are those the state machine predicts for the commands' literal pairs |
| GreedyMetaBlock.BuildMetaBlockGreedy | metablock.go:499-561 | all splitters are finished; command and distance codes are received in order; with one context the plain literal splitter receives the literals; with several, the literal split, histograms and static context map are those the state machine predicts |

## Left out

- Floating point: every entropy, population cost and logarithm is a real-valued function passed as a parameter (`BitsEntropy`, `BrotliPopulationCostDistance`, `FastLog2`). Rounding and NaN are not modelled, and `HistogramPair` costs are reals.
- Histograms are sequences of counts (`seq<nat>`, a multiset for the distance-cost histogram). Their `total_count_` field and the 32-bit width of counts and block lengths are not modelled; no count can exceed the symbol count.
- `CommandRestoreDistanceCode`, `PrefixEncodeCopyDistance` and `CommandCopyLen` are outside this model. The first two are the function fields of `DistanceCodec`; the copy length is a field of `Command`.
- `BROTLI_CONTEXT` and the context lookup table are a parameter `contextOf` from the two previous bytes to a 6-bit context.
- `pos & mask` is modelled as `pos % (mask + 1)`: the ring size is a power of two, as the encoder allocates it, and CopyLiteralsToByteArray, SplitBlock, WalkPlain, WalkContext, ContextLiterals and BuildMetaBlockGreedy require `mask + 1 == 2^k` for some `k <= 32`.
- `BlockSplitter.CopyLiteralsToByteArray`: requires a power-of-two ring of at most 2^32 bytes and insert runs no longer than the ring, which the encoder's window guarantees. A longer run would read past the ring into the buffer's tail, and that is not modelled.
- The plain splitters (`BlockSplitterLiteral`, `BlockSplitterCommand`, `BlockSplitterDistance`) and `SplitByteVector*` are not part of this model. In the greedy pass they are `SymbolSink`s that record the symbols they receive; `BrotliSplitBlock` stops at the arrays it hands to `SplitByteVector*`.
- Clustering (`BrotliClusterHistograms*`), `BrotliOptimizeHistograms`, the histogram building and context-mode choice of `BrotliBuildMetaBlock`, and the `BrotliBuildMetaBlockGreedy` wrapper are outside this model. Of `BrotliBuildMetaBlock`, only the distance-parameter search, the prefix rewrite and the literal context-map broadcast are modelled.
- The capacity growth policy of `brotli_ensure_capacity_*` (doubling) and memory release (`Destroy*`, `= nil`) are not modelled: slices grow to exactly the requested size.
- `ContextSplitters.MergeCosts`: the two gain sums are computed in a second loop over the same contexts, in the same order, not inside the per-context loop. The values are the same real sums.
- `GreedyMetaBlock.BuildMetaBlockGreedy`: the per-literal test `num_contexts == 1` is hoisted into two walks (WalkPlain and WalkContext), since `num_contexts` does not change during the pass. The literal histograms are copied into the meta-block split after the context splitter finishes, where Go writes them through pointers during the pass. With several contexts, `literal_split` validity after the pass is not stated.
- `GreedyMetaBlock.BuildMetaBlockGreedy`: the command and distance splits are not computed (their splitters are sinks), so only the symbols those splitters receive are stated.
- `ContextSplitterSpec.SplitStreamCovers`: the final `FinishBlock` pads the last block to the minimum block size, so the lengths sum to the literal count plus that padding, not to the literal count itself. The code does this and the model follows the code.
- `ContextSplitterSpec.Feed`: a symbol the splitter could not accept would be skipped. `FeedKeeps` proves this never happens for in-range symbols within the symbol count, which are the only ones the driver produces.
- `Cluster.IncomparableIff`: `HistogramPairIsLess` is a strict weak order, not a total order. Distinct pairs with equal cost difference and span are equivalent.
- `DistanceSearch.SearchDistanceParams`: the contract states feasibility, that the result is the original parameters or a searched candidate, and that its cost is at most the original's. It does not state which of the candidates the greedy cost comparison picks, since that depends on the floating-point cost estimates.
- `DistanceSearch.InitDistanceParams`: a large window requires `npostfix <= 3`, because the bound table has four entries and Go would panic outside that range. The encoder only passes such values.
- `DistanceSearch.ComputeDistanceCost`: the extra bits are summed exactly as a natural number, not as a float64.
- Debug `assert`s of the source (`num_contexts <= BROTLI_MAX_STATIC_CONTEXTS`, `histograms == nil`) are preconditions of the corresponding members.
