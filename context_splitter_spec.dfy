/** The greedy context block splitter of metablock.go as a pure state machine.
    A `Splitter` value holds every field the splitter and the BlockSplit it
    writes own; `FinishBlockSpec` and `AddSymbolSpec` are the two transitions.
    The class in context_splitter.dfy is proved to perform exactly these
    transitions, and the lemmas here state what the transitions guarantee:
    array bounds, the block-type budget, exact length accounting, and the
    safety of the "second last type" branch.

    Entropy estimates are floating point in the source; here `Config.entropy`
    is an arbitrary real-valued function of a histogram, so every branch the
    splitter takes is an oracle decision and every property below holds
    whichever branch is taken. */
module ContextSplitterSpec {
  import opened Common

  /** Bits the "second last" candidate must beat the "last" candidate by. */
  const MergeMargin: real := 20.0

  /** The splitter's fixed parameters. `numSymbols` is the symbol count given
      at initialisation; `entropy` stands for BitsEntropy. */
  datatype Config = Config(
    alphabetSize: nat,
    numContexts: nat,
    maxBlockTypes: nat,
    minBlockSize: nat,
    splitThreshold: real,
    numSymbols: nat,
    entropy: seq<nat> -> real)

  /** The parameters initialisation accepts. */
  predicate ConfigOk(c: Config) {
    && 1 <= c.numContexts <= MaxStaticContexts
    && c.maxBlockTypes == MaxNumberOfBlockTypes / c.numContexts
    && c.minBlockSize > 0
    && c.alphabetSize <= NumLiteralSymbols
  }

  /** `max_num_blocks`: no run of symbols produces more blocks than this. */
  function MaxNumBlocks(c: Config): nat
    requires c.minBlockSize > 0
  {
    c.numSymbols / c.minBlockSize + 1
  }

  /** `max_num_types`: one slot group more than the type budget, unless there cannot be that many blocks. */
  function MaxNumTypes(c: Config): nat
    requires c.minBlockSize > 0
  {
    if MaxNumBlocks(c) < c.maxBlockTypes + 1 then MaxNumBlocks(c) else c.maxBlockTypes + 1
  }

  /** First histogram slot of block type `t` (`t * numContexts`): the slots
      are laid out type by type, `numContexts` slots per type. */
  function SlotOf(t: nat, numContexts: nat): nat
  {
    if t == 0 then 0 else SlotOf(t - 1, numContexts) + numContexts
  }

  /** Entropy of the first `alphabetSize` counts of a histogram. */
  function Entropy(c: Config, h: seq<nat>): real
    requires c.alphabetSize <= |h|
  {
    BitsEntropy(c.entropy, h, c.alphabetSize)
  }

  /** BitsEntropy(population, size): the estimate over the first `size` counts. */
  function BitsEntropy(bitsEntropy: seq<nat> -> real, population: seq<nat>, size: nat): real
    requires size <= |population|
  {
    bitsEntropy(population[..size])
  }

  /** All splitter and BlockSplit state. `symbolsAdded` is a bookkeeping
      counter of the symbols fed so far; it has no counterpart in the source. */
  datatype Splitter = Splitter(
    numBlocks: nat,              // num_blocks_
    numTypes: nat,               // split.num_types
    splitNumBlocks: nat,         // split.num_blocks
    types: seq<Byte>,            // split.types
    lengths: seq<nat>,           // split.lengths
    histograms: seq<seq<nat>>,   // histograms_, flat: type * num_contexts + context
    histogramsSize: nat,         // *histograms_size_
    targetBlockSize: nat,
    blockSize: nat,
    currHistogramIx: nat,
    lastHistogramIx: seq<nat>,   // [2]: last and second-last type's first slot
    lastEntropy: seq<real>,      // [2 * MaxStaticContexts]
    mergeLastCount: nat,
    symbolsAdded: nat)

  /** What the three branches of FinishBlock choose between. */
  datatype Decision = NewBlockType | SecondLastType | MergeWithLast

  // ---------------------------------------------------------------------
  // Invariants
  // ---------------------------------------------------------------------

  /** Array sizes fixed at initialisation. */
  predicate Sizes(c: Config, s: Splitter)
    requires ConfigOk(c)
  {
    && |s.types| >= MaxNumBlocks(c)
    && |s.lengths| >= MaxNumBlocks(c)
    && |s.histograms| == SlotOf(MaxNumTypes(c), c.numContexts)
    && (forall k :: 0 <= k < |s.histograms| ==> |s.histograms[k]| == NumLiteralSymbols)
    && |s.lastHistogramIx| == 2
    && |s.lastEntropy| == 2 * MaxStaticContexts
  }

  /** The emitted blocks: in range, within budget, adjacent types distinct,
      every length at least the minimum block size. */
  predicate Blocks(c: Config, s: Splitter)
    requires ConfigOk(c) && Sizes(c, s)
  {
    && s.numBlocks <= MaxNumBlocks(c)
    && s.numTypes <= s.numBlocks
    && s.numTypes <= c.maxBlockTypes
    && (s.numBlocks == 0 <==> s.numTypes == 0)
    && (s.numTypes == 1 ==> s.numBlocks == 1)
    && (forall k :: 0 <= k < s.numBlocks ==> s.types[k] < s.numTypes)
    && (forall k :: 0 < k < s.numBlocks ==> s.types[k] != s.types[k - 1])
    && (forall k :: 0 <= k < s.numBlocks ==> s.lengths[k] >= c.minBlockSize)
  }

  /** The histogram-slot bookkeeping: the current block's slots follow those of
      all opened types, and the two remembered slots are those of the types of
      the last two blocks (both slot 0 while there is at most one block). */
  predicate Slots(c: Config, s: Splitter)
    requires ConfigOk(c) && Sizes(c, s) && Blocks(c, s)
  {
    && s.currHistogramIx == SlotOf(s.numTypes, c.numContexts)
    && s.currHistogramIx <= |s.histograms|
    && (s.numBlocks <= 1 ==> s.lastHistogramIx[1] == 0)
    && (s.numBlocks == 0 ==> s.lastHistogramIx[0] == 0)
    && (s.numBlocks >= 1 ==>
          && s.lastHistogramIx[0] == SlotOf(s.types[s.numBlocks - 1], c.numContexts)
          && s.lastHistogramIx[0] + c.numContexts <= s.currHistogramIx
          && s.lastHistogramIx[1] + c.numContexts <= s.currHistogramIx)
    && (s.numBlocks >= 2 ==> s.lastHistogramIx[1] == SlotOf(s.types[s.numBlocks - 2], c.numContexts))
  }

  /** `last_entropy_` caches the entropies of the last and second-last type's histograms. */
  predicate EntropyCache(c: Config, s: Splitter)
    requires ConfigOk(c) && Sizes(c, s) && Blocks(c, s) && Slots(c, s)
  {
    s.numBlocks >= 1 ==>
      RowsCached(c, s.histograms, s.lastEntropy, s.lastHistogramIx[0], s.lastHistogramIx[1])
  }

  /** The bounds under which the two cached rows for slots `l0` and `l1` can be read. */
  predicate RowsFit(c: Config, h: seq<seq<nat>>, le: seq<real>, l0: nat, l1: nat) {
    && l0 + c.numContexts <= |h|
    && l1 + c.numContexts <= |h|
    && 2 * c.numContexts <= |le|
    && (forall k :: 0 <= k < |h| ==> c.alphabetSize <= |h[k]|)
  }

  /** Row 0 of `le` holds the entropies of the slots at `l0`, row 1 those at `l1`. */
  predicate RowsCached(c: Config, h: seq<seq<nat>>, le: seq<real>, l0: nat, l1: nat)
    requires RowsFit(c, h, le, l0, l1)
  {
    forall i :: 0 <= i < c.numContexts ==> RowCached(c, h, le, l0, l1, i)
  }

  /** Context `i` of both cached rows. */
  predicate RowCached(c: Config, h: seq<seq<nat>>, le: seq<real>, l0: nat, l1: nat, i: nat)
    requires RowsFit(c, h, le, l0, l1) && i < c.numContexts
  {
    && le[i] == Entropy(c, h[l0 + i])
    && le[c.numContexts + i] == Entropy(c, h[l1 + i])
  }

  /** The target block size grows by one minimum block size per merge once the merge streak exceeds one. */
  predicate Target(c: Config, s: Splitter) {
    s.targetBlockSize == c.minBlockSize * (if s.mergeLastCount > 1 then s.mergeLastCount else 1)
  }

  /** What holds of the splitter at every step, the final split included. */
  predicate Structure(c: Config, s: Splitter) {
    && ConfigOk(c)
    && Sizes(c, s)
    && Blocks(c, s)
    && Slots(c, s)
    && EntropyCache(c, s)
    && Target(c, s)
  }

  /** What the transitions need to index their arrays. */
  predicate Pre(c: Config, s: Splitter) {
    && Structure(c, s)
    && s.numBlocks < MaxNumBlocks(c)
    && s.currHistogramIx + c.numContexts <= |s.histograms|
  }

  /** Between two calls, before the final one: the recorded lengths and the
      open block account exactly for the symbols added, which never exceed
      the count given at initialisation. */
  predicate Inv(c: Config, s: Splitter) {
    && Pre(c, s)
    && s.histogramsSize == |s.histograms|
    && s.splitNumBlocks == MaxNumBlocks(c)
    && Sum(s.lengths[..s.numBlocks]) + s.blockSize == s.symbolsAdded
    && s.symbolsAdded <= c.numSymbols
  }

  /** Ready for the next AddSymbol: the open block is below its target. */
  predicate Ready(c: Config, s: Splitter) {
    Inv(c, s) && s.blockSize < s.targetBlockSize
  }

  /** The BlockSplit handed over after the final FinishBlock. */
  predicate FinalSplit(c: Config, s: Splitter) {
    && Structure(c, s)
    && s.numBlocks >= 1
    && s.splitNumBlocks == s.numBlocks
    && s.histogramsSize == SlotOf(s.numTypes, c.numContexts)
  }

  // ---------------------------------------------------------------------
  // Histogram slot operations
  // ---------------------------------------------------------------------

  /** Clears `n` histograms starting at `from`. */
  function ClearSlots(h: seq<seq<nat>>, from: nat, n: nat): (r: seq<seq<nat>>)
    ensures |r| == |h|
    ensures forall k {:trigger r[k]} :: 0 <= k < |h| ==>
      r[k] == if from <= k < from + n then ZeroCounts(NumLiteralSymbols) else h[k]
  {
    seq(|h|, k requires 0 <= k < |h| =>
      if from <= k < from + n then ZeroCounts(NumLiteralSymbols) else h[k])
  }

  /** Adds the `n` current slots into the `n` slots at `dst` and clears the current ones. */
  function MergeSlots(h: seq<seq<nat>>, curr: nat, dst: nat, n: nat): (r: seq<seq<nat>>)
    requires dst + n <= curr && curr + n <= |h|
    requires forall k :: 0 <= k < |h| ==> |h[k]| == NumLiteralSymbols
    ensures |r| == |h|
    ensures forall k :: 0 <= k < |h| ==> |r[k]| == NumLiteralSymbols
    ensures forall k {:trigger r[k]} :: 0 <= k < |h| ==>
      r[k] == if dst <= k < dst + n then AddCounts(h[curr + (k - dst)], h[k])
              else if curr <= k < curr + n then ZeroCounts(NumLiteralSymbols)
              else h[k]
  {
    seq(|h|, k requires 0 <= k < |h| => MergedSlot(h, curr, dst, n, k))
  }

  /** Slot `k` after the merge. */
  function MergedSlot(h: seq<seq<nat>>, curr: nat, dst: nat, n: nat, k: nat): (r: seq<nat>)
    requires dst + n <= curr && curr + n <= |h| && k < |h|
    requires forall j :: 0 <= j < |h| ==> |h[j]| == NumLiteralSymbols
    ensures |r| == NumLiteralSymbols
  {
    if dst <= k < dst + n then AddCounts(h[curr + (k - dst)], h[k])
    else if curr <= k < curr + n then ZeroCounts(NumLiteralSymbols)
    else h[k]
  }

  /** A slot outside both merged ranges is untouched. */
  lemma MergeSlotsKeeps(h: seq<seq<nat>>, curr: nat, dst: nat, n: nat, k: nat)
    requires dst + n <= curr && curr + n <= |h|
    requires forall j :: 0 <= j < |h| ==> |h[j]| == NumLiteralSymbols
    requires k < dst || dst + n <= k
    requires k < curr
    ensures MergeSlots(h, curr, dst, n)[k] == h[k]
  {
  }

  /** New `last_entropy_`: `first` becomes the row of the last type and
      `second` the row of the second-last type; entries past both rows stay. */
  function SetRows(le: seq<real>, n: nat, first: seq<real>, second: seq<real>): (r: seq<real>)
    requires |first| == n && |second| == n && 2 * n <= |le|
    ensures |r| == |le|
    ensures forall k {:trigger r[k]} :: 0 <= k < |le| ==>
      r[k] == if k < n then first[k] else if k < 2 * n then second[k - n] else le[k]
  {
    seq(|le|, k requires 0 <= k < |le| =>
      if k < n then first[k] else if k < 2 * n then second[k - n] else le[k])
  }

  /** Entropies of the `n` slots starting at `from`. */
  function SlotEntropies(c: Config, h: seq<seq<nat>>, from: nat, n: nat): (r: seq<real>)
    requires from + n <= |h|
    requires forall k :: 0 <= k < |h| ==> c.alphabetSize <= |h[k]|
    ensures |r| == n
    ensures forall i {:trigger r[i]} :: 0 <= i < n ==> r[i] == Entropy(c, h[from + i])
  {
    seq(n, i requires 0 <= i < n => Entropy(c, h[from + i]))
  }

  /** The current slots each added to the slot at the same offset from `other`. */
  function MergedHistograms(h: seq<seq<nat>>, curr: nat, other: nat, n: nat): (r: seq<seq<nat>>)
    requires curr + n <= |h| && other + n <= |h|
    requires forall k :: 0 <= k < |h| ==> |h[k]| == NumLiteralSymbols
    ensures |r| == n
    ensures forall i {:trigger r[i]} :: 0 <= i < n ==> r[i] == AddCounts(h[curr + i], h[other + i])
  {
    seq(n, i requires 0 <= i < n => AddCounts(h[curr + i], h[other + i]))
  }

  /** Entropies of the current slots merged with the slots at `other`. */
  function MergedEntropies(c: Config, h: seq<seq<nat>>, curr: nat, other: nat, n: nat): (r: seq<real>)
    requires curr + n <= |h| && other + n <= |h|
    requires forall k :: 0 <= k < |h| ==> |h[k]| == NumLiteralSymbols
    requires c.alphabetSize <= NumLiteralSymbols
    ensures |r| == n
    ensures forall i {:trigger r[i]} :: 0 <= i < n ==> r[i] == Entropy(c, AddCounts(h[curr + i], h[other + i]))
  {
    seq(n, i requires 0 <= i < n => Entropy(c, AddCounts(h[curr + i], h[other + i])))
  }

  /** The minimum block size applied to the open block. */
  function Padded(c: Config, blockSize: nat): (r: nat)
    ensures r >= c.minBlockSize && r >= blockSize
  {
    if blockSize < c.minBlockSize then c.minBlockSize else blockSize
  }

  // ---------------------------------------------------------------------
  // The decision
  // ---------------------------------------------------------------------

  /** The running sum diff[j] of the source: over the contexts, the entropy
      of the merged histogram less that of the open block's histogram and the
      cached entropy of the candidate type, read at `off` + context. */
  function Gains(entropy: seq<real>, merged: seq<real>, cached: seq<real>, off: nat): real
    requires |merged| == |entropy| && off + |entropy| <= |cached|
  {
    if |entropy| == 0 then 0.0
    else
      var n := |entropy| - 1;
      Gains(entropy[..n], merged[..n], cached, off) + (merged[n] - entropy[n] - cached[off + n])
  }

  /** diff[j]: the entropy gained by merging the open block into the last
      (j = 0) or the second-last (j = 1) type. */
  function DiffSum(c: Config, s: Splitter, j: nat): real
    requires DiffsFit(c, s) && j < 2
  {
    var nc, h, curr := c.numContexts, s.histograms, s.currHistogramIx;
    Gains(SlotEntropies(c, h, curr, nc), MergedEntropies(c, h, curr, s.lastHistogramIx[j], nc),
          s.lastEntropy, if j == 0 then 0 else nc)
  }

  /** The bounds under which the merge costs can be computed. */
  predicate DiffsFit(c: Config, s: Splitter) {
    && |s.lastHistogramIx| == 2
    && c.numContexts <= MaxStaticContexts
    && c.alphabetSize <= NumLiteralSymbols
    && s.currHistogramIx + c.numContexts <= |s.histograms|
    && s.lastHistogramIx[0] + c.numContexts <= |s.histograms|
    && s.lastHistogramIx[1] + c.numContexts <= |s.histograms|
    && 2 * c.numContexts <= |s.lastEntropy|
    && (forall k :: 0 <= k < |s.histograms| ==> |s.histograms[k]| == NumLiteralSymbols)
  }

  /** The bounds under which every branch of FinishBlock can index its arrays. */
  predicate StepFits(c: Config, s: Splitter) {
    && DiffsFit(c, s)
    && c.maxBlockTypes <= MaxNumberOfBlockTypes
    && s.numBlocks < |s.types| && s.numBlocks < |s.lengths|
    && (s.numBlocks >= 1 ==>
          && s.lastHistogramIx[0] + c.numContexts <= s.currHistogramIx
          && s.lastHistogramIx[1] + c.numContexts <= s.currHistogramIx)
  }

  lemma PreFits(c: Config, s: Splitter)
    requires Pre(c, s)
    ensures StepFits(c, s)
  {
  }

  /** The rule FinishBlock applies to the summed gains `d0` (merging into
      the last type) and `d1` (into the second-last type): a new type when
      both gains exceed the threshold and a type is still free, else the
      second-last type when it is cheaper by more than the margin, else the
      last type. */
  function DecideOn(numTypes: nat, maxBlockTypes: nat, splitThreshold: real, d0: real, d1: real): Decision
  {
    if numTypes < maxBlockTypes && d0 > splitThreshold && d1 > splitThreshold then NewBlockType
    else if d1 < d0 - MergeMargin then SecondLastType
    else MergeWithLast
  }

  /** The branch FinishBlock takes on an open block of a splitter that has blocks. */
  function Decide(c: Config, s: Splitter): Decision
    requires DiffsFit(c, s)
  {
    DecideOn(s.numTypes, c.maxBlockTypes, c.splitThreshold, DiffSum(c, s, 0), DiffSum(c, s, 1))
  }

  // ---------------------------------------------------------------------
  // The branches of FinishBlock, with the padded block size `bs`
  // ---------------------------------------------------------------------

  function FirstBlock(c: Config, s: Splitter, bs: nat): Splitter
    requires StepFits(c, s) && s.numBlocks == 0
  {
    var nc := c.numContexts;
    var next := s.currHistogramIx + nc;
    var ent := SlotEntropies(c, s.histograms, 0, nc);
    s.(lengths := s.lengths[0 := bs],
       types := s.types[0 := 0],
       lastEntropy := SetRows(s.lastEntropy, nc, ent, ent),
       numBlocks := s.numBlocks + 1,
       numTypes := s.numTypes + 1,
       currHistogramIx := next,
       histograms := if next < s.histogramsSize then ClearSlots(s.histograms, next, nc) else s.histograms,
       blockSize := 0)
  }

  function NewType(c: Config, s: Splitter, bs: nat): Splitter
    requires StepFits(c, s) && s.numBlocks >= 1 && s.numTypes < c.maxBlockTypes
  {
    var nc := c.numContexts;
    var next := s.currHistogramIx + nc;
    s.(lengths := s.lengths[s.numBlocks := bs],
       types := s.types[s.numBlocks := s.numTypes],
       lastHistogramIx := [SlotOf(s.numTypes, nc), s.lastHistogramIx[0]],
       lastEntropy := SetRows(s.lastEntropy, nc, SlotEntropies(c, s.histograms, s.currHistogramIx, nc), s.lastEntropy[..nc]),
       numBlocks := s.numBlocks + 1,
       numTypes := s.numTypes + 1,
       currHistogramIx := next,
       histograms := if next < s.histogramsSize then ClearSlots(s.histograms, next, nc) else s.histograms,
       blockSize := 0,
       mergeLastCount := 0,
       targetBlockSize := c.minBlockSize)
  }

  function SecondLast(c: Config, s: Splitter, bs: nat): Splitter
    requires StepFits(c, s) && s.numBlocks >= 2
  {
    var nc := c.numContexts;
    var last1 := s.lastHistogramIx[1];
    s.(lengths := s.lengths[s.numBlocks := bs],
       types := s.types[s.numBlocks := s.types[s.numBlocks - 2]],
       lastHistogramIx := [last1, s.lastHistogramIx[0]],
       histograms := MergeSlots(s.histograms, s.currHistogramIx, last1, nc),
       lastEntropy := SetRows(s.lastEntropy, nc,
                        MergedEntropies(c, s.histograms, s.currHistogramIx, last1, nc), s.lastEntropy[..nc]),
       numBlocks := s.numBlocks + 1,
       blockSize := 0,
       mergeLastCount := 0,
       targetBlockSize := c.minBlockSize)
  }

  function MergeLast(c: Config, s: Splitter, bs: nat): Splitter
    requires StepFits(c, s) && s.numBlocks >= 1
  {
    var nc := c.numContexts;
    var last0 := s.lastHistogramIx[0];
    var ent := MergedEntropies(c, s.histograms, s.currHistogramIx, last0, nc);
    s.(lengths := s.lengths[s.numBlocks - 1 := s.lengths[s.numBlocks - 1] + bs],
       histograms := MergeSlots(s.histograms, s.currHistogramIx, last0, nc),
       lastEntropy := SetRows(s.lastEntropy, nc, ent, if s.numTypes == 1 then ent else s.lastEntropy[nc..2 * nc]),
       blockSize := 0,
       mergeLastCount := s.mergeLastCount + 1,
       targetBlockSize := if s.mergeLastCount + 1 > 1 then s.targetBlockSize + c.minBlockSize
                          else s.targetBlockSize)
  }

  /** Two sums over the same entropies agree when the cached entries they
      read agree. */
  lemma {:induction false} GainsAgree(entropy: seq<real>, merged: seq<real>, cached: seq<real>, off0: nat, off1: nat)
    requires |merged| == |entropy| && off0 + |entropy| <= |cached| && off1 + |entropy| <= |cached|
    requires forall k :: off0 <= k < off0 + |entropy| ==> cached[k] == cached[k - off0 + off1]
    ensures Gains(entropy, merged, cached, off0) == Gains(entropy, merged, cached, off1)
  {
    if |entropy| > 0 {
      var n := |entropy| - 1;
      GainsAgree(entropy[..n], merged[..n], cached, off0, off1);
      assert cached[off0 + n] == cached[off1 + n];
    }
  }

  /** While only one type exists, both remembered slots are slot 0 and both
      cached rows agree, so the two merge costs agree. */
  lemma DiffsAgreeWithOneType(c: Config, s: Splitter)
    requires Pre(c, s) && s.numBlocks >= 1 && s.numTypes == 1
    ensures DiffSum(c, s, 0) == DiffSum(c, s, 1)
  {
    PreFits(c, s);
    var nc := c.numContexts;
    assert s.types[0] == 0;
    assert s.lastHistogramIx[0] == 0 && s.lastHistogramIx[1] == 0;
    forall i | 0 <= i < nc
      ensures s.lastEntropy[i] == s.lastEntropy[i + nc]
    {
      assert RowCached(c, s.histograms, s.lastEntropy, 0, 0, i);
    }
    var h, curr := s.histograms, s.currHistogramIx;
    GainsAgree(SlotEntropies(c, h, curr, nc), MergedEntropies(c, h, curr, 0, nc), s.lastEntropy, 0, nc);
  }

  /** The "second last" branch is taken only once there are two types, hence
      two blocks, so reading `types[num_blocks - 2]` is in bounds. */
  lemma SecondLastNeedsTwoBlocks(c: Config, s: Splitter)
    requires Pre(c, s) && s.numBlocks >= 1
    requires Decide(c, s) == SecondLastType
    ensures s.numTypes >= 2 && s.numBlocks >= 2
  {
    if s.numTypes == 1 {
      DiffsAgreeWithOneType(c, s);
    }
  }

  /** The state after the branch is taken, before the final bookkeeping. */
  function Emit(c: Config, s: Splitter, bs: nat): Splitter
    requires Pre(c, s)
  {
    PreFits(c, s);
    if s.numBlocks == 0 then FirstBlock(c, s, bs)
    else if bs > 0 then
      match Decide(c, s)
      case NewBlockType => NewType(c, s, bs)
      case SecondLastType => SecondLastNeedsTwoBlocks(c, s); SecondLast(c, s, bs)
      case MergeWithLast => MergeLast(c, s, bs)
    else s
  }

  /** ContextBlockSplitterFinishBlock. */
  function FinishBlockSpec(c: Config, s: Splitter, isFinal: bool): Splitter
    requires Pre(c, s)
  {
    var r := Emit(c, s, Padded(c, s.blockSize));
    if isFinal then r.(histogramsSize := SlotOf(r.numTypes, c.numContexts), splitNumBlocks := r.numBlocks)
    else r
  }

  // ---------------------------------------------------------------------
  // Every branch keeps the structure and records exactly the padded block
  // ---------------------------------------------------------------------

  /** Slots of distinct types do not overlap. */
  lemma {:induction false} SlotsOrdered(t0: nat, t1: nat, n: nat)
    requires t0 < t1
    ensures SlotOf(t0, n) + n <= SlotOf(t1, n)
    decreases t1 - t0
  {
    if t0 + 1 < t1 {
      SlotsOrdered(t0 + 1, t1, n);
    }
  }

  /** Once two blocks exist, the slots of the last two types do not overlap. */
  lemma LastSlotsDisjoint(c: Config, s: Splitter)
    requires Structure(c, s) && s.numBlocks >= 2
    ensures || s.lastHistogramIx[0] + c.numContexts <= s.lastHistogramIx[1]
            || s.lastHistogramIx[1] + c.numContexts <= s.lastHistogramIx[0]
  {
    var t0, t1 := s.types[s.numBlocks - 1], s.types[s.numBlocks - 2];
    assert t0 != t1;
    if t0 < t1 { SlotsOrdered(t0, t1, c.numContexts); } else { SlotsOrdered(t1, t0, c.numContexts); }
  }

  // ---------------------------------------------------------------------
  // The entropy cache after each branch, on the raw slot and cache arrays
  // ---------------------------------------------------------------------

  /** The first block caches the entropies of slot group 0 in both rows. */
  lemma FirstRowsCached(c: Config, h: seq<seq<nat>>, h2: seq<seq<nat>>, le: seq<real>)
    requires RowsFit(c, h, le, 0, 0)
    requires |h2| == |h| && forall k :: 0 <= k < |h2| ==> c.alphabetSize <= |h2[k]|
    requires forall k :: 0 <= k < c.numContexts ==> h2[k] == h[k]
    ensures var ent := SlotEntropies(c, h, 0, c.numContexts);
            var le2 := SetRows(le, c.numContexts, ent, ent);
            RowsFit(c, h2, le2, 0, 0) && RowsCached(c, h2, le2, 0, 0)
  {
    var nc := c.numContexts;
    var ent := SlotEntropies(c, h, 0, nc);
    var le2 := SetRows(le, nc, ent, ent);
    forall i | 0 <= i < nc
      ensures RowCached(c, h2, le2, 0, 0, i)
    {
      assert h2[i] == h[i];
    }
  }

  /** A new type caches its own slots in row 0 and moves the old row 0 to row 1. */
  lemma NewTypeRowsCached(c: Config, h: seq<seq<nat>>, h2: seq<seq<nat>>, le: seq<real>, l0: nat, l1: nat, curr: nat)
    requires RowsFit(c, h, le, l0, l1) && RowsCached(c, h, le, l0, l1)
    requires l0 + c.numContexts <= curr && curr + c.numContexts <= |h|
    requires |h2| == |h| && forall k :: 0 <= k < |h2| ==> c.alphabetSize <= |h2[k]|
    requires forall k :: 0 <= k < curr + c.numContexts ==> h2[k] == h[k]
    ensures var nc := c.numContexts;
            var le2 := SetRows(le, nc, SlotEntropies(c, h, curr, nc), le[..nc]);
            RowsFit(c, h2, le2, curr, l0) && RowsCached(c, h2, le2, curr, l0)
  {
    var nc := c.numContexts;
    var le2 := SetRows(le, nc, SlotEntropies(c, h, curr, nc), le[..nc]);
    forall i | 0 <= i < nc
      ensures RowCached(c, h2, le2, curr, l0, i)
    {
      assert RowCached(c, h, le, l0, l1, i);
      assert h2[curr + i] == h[curr + i];
      assert h2[l0 + i] == h[l0 + i];
    }
  }

  /** Merging into the second-last type caches the merged slots in row 0 and
      moves the old row 0 to row 1. */
  lemma SecondLastRowsCached(c: Config, h: seq<seq<nat>>, le: seq<real>, l0: nat, l1: nat, curr: nat)
    requires RowsFit(c, h, le, l0, l1) && RowsCached(c, h, le, l0, l1)
    requires l0 + c.numContexts <= curr && l1 + c.numContexts <= curr && curr + c.numContexts <= |h|
    requires l0 + c.numContexts <= l1 || l1 + c.numContexts <= l0
    requires forall k :: 0 <= k < |h| ==> |h[k]| == NumLiteralSymbols
    requires c.alphabetSize <= NumLiteralSymbols
    ensures var nc := c.numContexts;
            var h2 := MergeSlots(h, curr, l1, nc);
            var le2 := SetRows(le, nc, MergedEntropies(c, h, curr, l1, nc), le[..nc]);
            RowsFit(c, h2, le2, l1, l0) && RowsCached(c, h2, le2, l1, l0)
  {
    var nc := c.numContexts;
    var h2 := MergeSlots(h, curr, l1, nc);
    var le2 := SetRows(le, nc, MergedEntropies(c, h, curr, l1, nc), le[..nc]);
    forall i | 0 <= i < nc
      ensures RowCached(c, h2, le2, l1, l0, i)
    {
      assert RowCached(c, h, le, l0, l1, i);
      assert h2[l1 + i] == AddCounts(h[curr + i], h[l1 + i]);
      assert le2[i] == Entropy(c, h2[l1 + i]);
      MergeSlotsKeeps(h, curr, l1, nc, l0 + i);
      assert le2[nc + i] == le[i];
    }
  }

  /** Merging into the last type refreshes row 0; row 1 is kept, or refreshed
      too when both rows describe the same (only) type. */
  lemma MergeLastRowsCached(c: Config, h: seq<seq<nat>>, le: seq<real>, l0: nat, l1: nat, curr: nat, oneType: bool)
    requires RowsFit(c, h, le, l0, l1) && RowsCached(c, h, le, l0, l1)
    requires l0 + c.numContexts <= curr && l1 + c.numContexts <= curr && curr + c.numContexts <= |h|
    requires oneType ==> l0 == l1
    requires !oneType ==> l0 + c.numContexts <= l1 || l1 + c.numContexts <= l0
    requires forall k :: 0 <= k < |h| ==> |h[k]| == NumLiteralSymbols
    requires c.alphabetSize <= NumLiteralSymbols
    ensures var nc := c.numContexts;
            var h2 := MergeSlots(h, curr, l0, nc);
            var ent := MergedEntropies(c, h, curr, l0, nc);
            var le2 := SetRows(le, nc, ent, if oneType then ent else le[nc..2 * nc]);
            RowsFit(c, h2, le2, l0, l1) && RowsCached(c, h2, le2, l0, l1)
  {
    var nc := c.numContexts;
    var h2 := MergeSlots(h, curr, l0, nc);
    var ent := MergedEntropies(c, h, curr, l0, nc);
    var le2 := SetRows(le, nc, ent, if oneType then ent else le[nc..2 * nc]);
    forall i | 0 <= i < nc
      ensures RowCached(c, h2, le2, l0, l1, i)
    {
      assert RowCached(c, h, le, l0, l1, i);
      assert h2[l0 + i] == AddCounts(h[curr + i], h[l0 + i]);
      if !oneType {
        assert h2[l1 + i] == h[l1 + i];
      }
    }
  }

  /** What every branch promises; the accounting is that the recorded lengths
      grow by exactly the padded block size. */
  predicate StepKeeps(c: Config, s: Splitter, r: Splitter, bs: nat)
    requires Pre(c, s)
  {
    && Structure(c, r)
    && 1 <= r.numBlocks
    && s.numBlocks <= r.numBlocks <= s.numBlocks + 1
    && r.blockSize == 0
    && |r.histograms| == |s.histograms|
    && r.histogramsSize == s.histogramsSize
    && r.splitNumBlocks == s.splitNumBlocks
    && r.symbolsAdded == s.symbolsAdded
    && Sum(r.lengths[..r.numBlocks]) == Sum(s.lengths[..s.numBlocks]) + bs
  }

  lemma FirstBlockKeeps(c: Config, s: Splitter, bs: nat)
    requires Pre(c, s) && s.numBlocks == 0 && bs >= c.minBlockSize
    ensures StepKeeps(c, s, FirstBlock(c, s, bs), bs)
  {
    var r := FirstBlock(c, s, bs);
    var nc := c.numContexts;
    assert s.numTypes == 0 && s.currHistogramIx == 0;
    assert Sizes(c, r);
    assert Blocks(c, r);
    assert Slots(c, r);
    FirstRowsCached(c, s.histograms, r.histograms, s.lastEntropy);
    assert EntropyCache(c, r);
    assert Target(c, r);
    assert r.lengths[..1] == [] + [bs];
    SumAppend([], bs);
    assert s.lengths[..0] == [];
  }

  lemma NewTypeSizes(c: Config, s: Splitter, bs: nat)
    requires Pre(c, s) && s.numBlocks >= 1 && s.numTypes < c.maxBlockTypes
    ensures Sizes(c, NewType(c, s, bs))
  {
  }

  lemma NewTypeBlocks(c: Config, s: Splitter, bs: nat)
    requires Pre(c, s) && s.numBlocks >= 1 && s.numTypes < c.maxBlockTypes && bs >= c.minBlockSize
    ensures var r := NewType(c, s, bs); Sizes(c, r) && Blocks(c, r)
  {
    NewTypeSizes(c, s, bs);
    var r := NewType(c, s, bs);
    var nb := s.numBlocks;
    assert r.types[nb] == s.numTypes;
    assert s.types[nb - 1] < s.numTypes;
    assert forall k :: 0 <= k < nb ==> r.types[k] == s.types[k];
  }

  lemma NewTypeShape(c: Config, s: Splitter, bs: nat)
    requires Pre(c, s) && s.numBlocks >= 1 && s.numTypes < c.maxBlockTypes && bs >= c.minBlockSize
    ensures var r := NewType(c, s, bs); Sizes(c, r) && Blocks(c, r) && Slots(c, r)
  {
    NewTypeBlocks(c, s, bs);
    var r := NewType(c, s, bs);
    var nb := s.numBlocks;
    var nc := c.numContexts;
    assert r.types[nb - 1] == s.types[nb - 1];
    assert r.currHistogramIx <= |r.histograms|;
    assert r.lastHistogramIx[0] == SlotOf(r.types[nb], nc);
    assert r.lastHistogramIx[0] + nc <= r.currHistogramIx;
    assert r.lastHistogramIx[1] + nc <= r.currHistogramIx;
    assert r.lastHistogramIx[1] == SlotOf(r.types[nb - 1], nc);
  }

  lemma NewTypeCache(c: Config, s: Splitter, bs: nat)
    requires Pre(c, s) && s.numBlocks >= 1 && s.numTypes < c.maxBlockTypes && bs >= c.minBlockSize
    ensures var r := NewType(c, s, bs); Sizes(c, r) && Blocks(c, r) && Slots(c, r) && EntropyCache(c, r)
  {
    NewTypeShape(c, s, bs);
    var r := NewType(c, s, bs);
    NewTypeRowsCached(c, s.histograms, r.histograms, s.lastEntropy,
                      s.lastHistogramIx[0], s.lastHistogramIx[1], s.currHistogramIx);
  }


  lemma NewTypeKeeps(c: Config, s: Splitter, bs: nat)
    requires Pre(c, s) && s.numBlocks >= 1 && s.numTypes < c.maxBlockTypes && bs >= c.minBlockSize
    ensures StepKeeps(c, s, NewType(c, s, bs), bs)
  {
    NewTypeCache(c, s, bs);
    var r := NewType(c, s, bs);
    var nb := s.numBlocks;
    SumExtendPrefix(s.lengths, nb, bs);
  }

  lemma SecondLastShape(c: Config, s: Splitter, bs: nat)
    requires Pre(c, s) && s.numBlocks >= 2 && s.numTypes >= 2 && bs >= c.minBlockSize
    ensures var r := SecondLast(c, s, bs); Sizes(c, r) && Blocks(c, r) && Slots(c, r)
  {
    var r := SecondLast(c, s, bs);
    var nb := s.numBlocks;
    assert Sizes(c, r);
    assert r.types[nb] != r.types[nb - 1];
    assert forall k :: 0 <= k < nb ==> r.types[k] == s.types[k];
    assert Blocks(c, r);
  }

  lemma SecondLastCache(c: Config, s: Splitter, bs: nat)
    requires Pre(c, s) && s.numBlocks >= 2 && s.numTypes >= 2 && bs >= c.minBlockSize
    ensures var r := SecondLast(c, s, bs); Sizes(c, r) && Blocks(c, r) && Slots(c, r) && EntropyCache(c, r)
  {
    SecondLastShape(c, s, bs);
    LastSlotsDisjoint(c, s);
    SecondLastRowsCached(c, s.histograms, s.lastEntropy,
                         s.lastHistogramIx[0], s.lastHistogramIx[1], s.currHistogramIx);
  }


  lemma SecondLastKeeps(c: Config, s: Splitter, bs: nat)
    requires Pre(c, s) && s.numBlocks >= 2 && s.numTypes >= 2 && bs >= c.minBlockSize
    ensures StepKeeps(c, s, SecondLast(c, s, bs), bs)
  {
    SecondLastCache(c, s, bs);
    var r := SecondLast(c, s, bs);
    var nb := s.numBlocks;
    SumExtendPrefix(s.lengths, nb, bs);
  }

  lemma MergeLastShape(c: Config, s: Splitter, bs: nat)
    requires Pre(c, s) && s.numBlocks >= 1 && bs >= c.minBlockSize
    ensures var r := MergeLast(c, s, bs); Sizes(c, r) && Blocks(c, r) && Slots(c, r) && Target(c, r)
  {
    var r := MergeLast(c, s, bs);
    assert Sizes(c, r);
    assert Blocks(c, r);
    if s.mergeLastCount >= 1 {
      assert c.minBlockSize * (s.mergeLastCount + 1) == c.minBlockSize * s.mergeLastCount + c.minBlockSize;
    }
  }

  lemma MergeLastCache(c: Config, s: Splitter, bs: nat)
    requires Pre(c, s) && s.numBlocks >= 1 && bs >= c.minBlockSize
    ensures var r := MergeLast(c, s, bs); Sizes(c, r) && Blocks(c, r) && Slots(c, r) && EntropyCache(c, r)
  {
    MergeLastShape(c, s, bs);
    if s.numTypes >= 2 {
      LastSlotsDisjoint(c, s);
    } else {
      assert s.types[0] == 0;
    }
    MergeLastRowsCached(c, s.histograms, s.lastEntropy,
                        s.lastHistogramIx[0], s.lastHistogramIx[1], s.currHistogramIx, s.numTypes == 1);
  }


  lemma MergeLastKeeps(c: Config, s: Splitter, bs: nat)
    requires Pre(c, s) && s.numBlocks >= 1 && bs >= c.minBlockSize
    ensures StepKeeps(c, s, MergeLast(c, s, bs), bs)
  {
    MergeLastShape(c, s, bs);
    MergeLastCache(c, s, bs);
    var r := MergeLast(c, s, bs);
    var nb := s.numBlocks;
    SumGrowLast(s.lengths, nb, bs);
  }

  /** Emit takes the branch the decision names. */
  lemma EmitIsFirstBlock(c: Config, s: Splitter, bs: nat)
    requires Pre(c, s) && s.numBlocks == 0
    ensures Emit(c, s, bs) == FirstBlock(c, s, bs)
  {
  }

  lemma EmitIsNewType(c: Config, s: Splitter, bs: nat)
    requires Pre(c, s) && bs > 0 && s.numBlocks >= 1 && Decide(c, s) == NewBlockType
    ensures Emit(c, s, bs) == NewType(c, s, bs)
  {
  }

  lemma EmitIsSecondLast(c: Config, s: Splitter, bs: nat)
    requires Pre(c, s) && bs > 0 && s.numBlocks >= 1 && Decide(c, s) == SecondLastType
    ensures s.numBlocks >= 2 && s.numTypes >= 2
    ensures Emit(c, s, bs) == SecondLast(c, s, bs)
  {
    SecondLastNeedsTwoBlocks(c, s);
  }

  lemma EmitIsMergeLast(c: Config, s: Splitter, bs: nat)
    requires Pre(c, s) && bs > 0 && s.numBlocks >= 1 && Decide(c, s) == MergeWithLast
    ensures Emit(c, s, bs) == MergeLast(c, s, bs)
  {
  }

  lemma EmitKeeps(c: Config, s: Splitter, bs: nat)
    requires Pre(c, s) && bs >= c.minBlockSize
    ensures StepKeeps(c, s, Emit(c, s, bs), bs)
  {
    if s.numBlocks == 0 {
      FirstBlockKeeps(c, s, bs);
      EmitIsFirstBlock(c, s, bs);
    } else {
      match Decide(c, s)
      case NewBlockType =>
        NewTypeKeeps(c, s, bs);
        EmitIsNewType(c, s, bs);
      case SecondLastType =>
        EmitIsSecondLast(c, s, bs);
        SecondLastKeeps(c, s, bs);
      case MergeWithLast =>
        MergeLastKeeps(c, s, bs);
        EmitIsMergeLast(c, s, bs);
    }
  }


  // ---------------------------------------------------------------------
  // Capacity: the length accounting keeps the arrays large enough
  // ---------------------------------------------------------------------

  /** Blocks of at least `min_block_size` symbols each, covering at most
      `num_symbols` symbols, number fewer than `max_num_blocks`. */
  lemma BlocksBelowMax(c: Config, nb: nat, total: nat)
    requires c.minBlockSize > 0 && total <= c.numSymbols && nb * c.minBlockSize <= total
    ensures nb < MaxNumBlocks(c)
  {
    var m, q := c.minBlockSize, c.numSymbols / c.minBlockSize;
    assert c.numSymbols < (q + 1) * m;
    MulLessCancel(nb, q + 1, m);
  }

  lemma {:induction false} MulLessCancel(a: nat, b: nat, m: nat)
    requires a * m < b * m
    ensures a < b
  {
    if a >= b {
      MulMono(b, a, m);
    }
  }

  lemma {:induction false} MulMono(a: nat, b: nat, m: nat)
    requires a <= b
    ensures a * m <= b * m
  {
  }

  /** A structurally sound splitter whose recorded lengths stay within the
      symbol count has room for one more block and one more slot group. */
  lemma RoomForNextBlock(c: Config, s: Splitter)
    requires Structure(c, s) && Sum(s.lengths[..s.numBlocks]) <= c.numSymbols
    ensures Pre(c, s)
  {
    var nb := s.numBlocks;
    forall k | 0 <= k < |s.lengths[..nb]|
      ensures s.lengths[..nb][k] >= c.minBlockSize
    {
    }
    SumLowerBound(s.lengths[..nb], c.minBlockSize);
    BlocksBelowMax(c, nb, Sum(s.lengths[..nb]));
    SlotsOrdered(s.numTypes, MaxNumTypes(c), c.numContexts);
  }

  /** ContextBlockSplitterFinishBlock keeps the structure and records the open
      block, padded to the minimum block size. A call made because the block
      reached its target leaves the splitter ready for the next symbol; the
      final call hands over a split whose lengths cover every symbol added
      plus the padding of the last block. */
  lemma FinishBlockKeeps(c: Config, s: Splitter, isFinal: bool)
    requires Inv(c, s)
    requires isFinal || s.blockSize == s.targetBlockSize
    ensures var r := FinishBlockSpec(c, s, isFinal);
            && Structure(c, r)
            && r.blockSize == 0
            && r.symbolsAdded == s.symbolsAdded
            && Sum(r.lengths[..r.numBlocks]) == s.symbolsAdded + (Padded(c, s.blockSize) - s.blockSize)
            && (!isFinal ==> Ready(c, r))
            && (isFinal ==> FinalSplit(c, r))
  {
    var bs := Padded(c, s.blockSize);
    EmitKeeps(c, s, bs);
    var e := Emit(c, s, bs);
    if isFinal {
      FinalStepKeeps(c, s, e);
    } else {
      assert FinishBlockSpec(c, s, isFinal) == e;
      TargetStepReady(c, s, e);
    }
  }

  lemma FinalStepKeeps(c: Config, s: Splitter, e: Splitter)
    requires Pre(c, s) && StepKeeps(c, s, e, Padded(c, s.blockSize))
    ensures var r := e.(histogramsSize := SlotOf(e.numTypes, c.numContexts), splitNumBlocks := e.numBlocks);
            Structure(c, r) && FinalSplit(c, r)
  {
    var r := e.(histogramsSize := SlotOf(e.numTypes, c.numContexts), splitNumBlocks := e.numBlocks);
    assert Sizes(c, r) && Blocks(c, r) && Slots(c, r);
    assert EntropyCache(c, r) && Target(c, r);
  }

  lemma TargetStepReady(c: Config, s: Splitter, e: Splitter)
    requires Inv(c, s) && s.blockSize == s.targetBlockSize
    requires StepKeeps(c, s, e, Padded(c, s.blockSize))
    ensures Ready(c, e)
  {
    TargetAtLeastMin(c, s);
    RoomForNextBlock(c, e);
    TargetAtLeastMin(c, e);
  }

  lemma TargetAtLeastMin(c: Config, s: Splitter)
    requires Target(c, s)
    ensures s.targetBlockSize >= c.minBlockSize
  {
    MulMono(1, if s.mergeLastCount > 1 then s.mergeLastCount else 1, c.minBlockSize);
  }

  // ---------------------------------------------------------------------
  // Adding a symbol
  // ---------------------------------------------------------------------

  /** Changing only slots at or above `bound`, past both cached slot groups,
      keeps the cache valid. */
  lemma RowsCachedAbove(c: Config, h: seq<seq<nat>>, h2: seq<seq<nat>>, le: seq<real>, l0: nat, l1: nat, bound: nat)
    requires RowsFit(c, h, le, l0, l1) && RowsCached(c, h, le, l0, l1)
    requires l0 + c.numContexts <= bound && l1 + c.numContexts <= bound
    requires |h2| == |h| && forall k :: 0 <= k < |h2| ==> c.alphabetSize <= |h2[k]|
    requires forall k :: 0 <= k < bound && k < |h| ==> h2[k] == h[k]
    ensures RowsFit(c, h2, le, l0, l1) && RowsCached(c, h2, le, l0, l1)
  {
    forall i | 0 <= i < c.numContexts
      ensures RowCached(c, h2, le, l0, l1, i)
    {
      assert RowCached(c, h, le, l0, l1, i);
      assert h2[l0 + i] == h[l0 + i] && h2[l1 + i] == h[l1 + i];
    }
  }

  /** HistogramAddLiteral on the current block's slot for `context`, and the
      block grows by one symbol. */
  function Counted(c: Config, s: Splitter, symbol: nat, context: nat): Splitter
    requires Ready(c, s) && symbol < NumLiteralSymbols && context < c.numContexts
  {
    var ix := s.currHistogramIx + context;
    s.(histograms := s.histograms[ix := s.histograms[ix][symbol := s.histograms[ix][symbol] + 1]],
       blockSize := s.blockSize + 1,
       symbolsAdded := s.symbolsAdded + 1)
  }

  lemma CountedKeeps(c: Config, s: Splitter, symbol: nat, context: nat)
    requires Ready(c, s) && symbol < NumLiteralSymbols && context < c.numContexts
    requires s.symbolsAdded < c.numSymbols
    ensures var t := Counted(c, s, symbol, context);
            Inv(c, t) && t.blockSize <= t.targetBlockSize
  {
    var t := Counted(c, s, symbol, context);
    assert Sizes(c, t);
    assert Blocks(c, t);
    assert Slots(c, t);
    if s.numBlocks >= 1 {
      RowsCachedAbove(c, s.histograms, t.histograms, s.lastEntropy,
                      s.lastHistogramIx[0], s.lastHistogramIx[1], s.currHistogramIx);
    }
    assert EntropyCache(c, t);
  }

  /** ContextBlockSplitterAddSymbol: count the symbol, and finish the block
      once it reaches its target size. */
  function AddSymbolSpec(c: Config, s: Splitter, symbol: nat, context: nat): Splitter
    requires Ready(c, s) && symbol < NumLiteralSymbols && context < c.numContexts
    requires s.symbolsAdded < c.numSymbols
  {
    CountedKeeps(c, s, symbol, context);
    var t := Counted(c, s, symbol, context);
    if t.blockSize == t.targetBlockSize then FinishBlockSpec(c, t, false) else t
  }

  /** Adding a symbol keeps the splitter ready and accounts for the symbol;
      below the target it only grows the open block. */
  lemma AddSymbolKeeps(c: Config, s: Splitter, symbol: nat, context: nat)
    requires Ready(c, s) && symbol < NumLiteralSymbols && context < c.numContexts
    requires s.symbolsAdded < c.numSymbols
    ensures var r := AddSymbolSpec(c, s, symbol, context);
            && Ready(c, r)
            && r.symbolsAdded == s.symbolsAdded + 1
            && (s.blockSize + 1 < s.targetBlockSize ==>
                  && r.numBlocks == s.numBlocks
                  && r.blockSize == s.blockSize + 1
                  && r.targetBlockSize == s.targetBlockSize)
  {
    CountedKeeps(c, s, symbol, context);
    var t := Counted(c, s, symbol, context);
    if t.blockSize == t.targetBlockSize {
      FinishBlockKeeps(c, t, false);
    }
  }

  // ---------------------------------------------------------------------
  // A whole run: initialise, add every symbol, finish
  // ---------------------------------------------------------------------

  /** InitContextBlockSplitter, over a BlockSplit whose arrays were grown to
      `max_num_blocks` (their contents are not read) and a cache row array
      that is not read before the first block. All histograms start empty. */
  function InitSpec(c: Config, types: seq<Byte>, lengths: seq<nat>, lastEntropy: seq<real>): Splitter
    requires ConfigOk(c)
  {
    var n := SlotOf(MaxNumTypes(c), c.numContexts);
    Splitter(
      numBlocks := 0,
      numTypes := 0,
      splitNumBlocks := MaxNumBlocks(c),
      types := types,
      lengths := lengths,
      histograms := seq(n, _ => ZeroCounts(NumLiteralSymbols)),
      histogramsSize := n,
      targetBlockSize := c.minBlockSize,
      blockSize := 0,
      currHistogramIx := 0,
      lastHistogramIx := [0, 0],
      lastEntropy := lastEntropy,
      mergeLastCount := 0,
      symbolsAdded := 0)
  }

  lemma InitReady(c: Config, types: seq<Byte>, lengths: seq<nat>, lastEntropy: seq<real>)
    requires ConfigOk(c)
    requires |types| >= MaxNumBlocks(c) && |lengths| >= MaxNumBlocks(c) && |lastEntropy| == 2 * MaxStaticContexts
    ensures Ready(c, InitSpec(c, types, lengths, lastEntropy))
  {
    var s := InitSpec(c, types, lengths, lastEntropy);
    SlotsOrdered(0, MaxNumTypes(c), c.numContexts);
    assert s.lengths[..0] == [];
  }

  /** Every symbol is a literal and every context a valid bucket. */
  predicate SymbolsOk(c: Config, syms: seq<(nat, nat)>) {
    forall k :: 0 <= k < |syms| ==> syms[k].0 < NumLiteralSymbols && syms[k].1 < c.numContexts
  }

  /** The splitter can take the pair `x`: ContextBlockSplitterAddSymbol's
      precondition. */
  predicate Accepts(c: Config, s: Splitter, x: (nat, nat)) {
    Ready(c, s) && x.0 < NumLiteralSymbols && x.1 < c.numContexts && s.symbolsAdded < c.numSymbols
  }

  /** Adds `(symbol, context)` pairs in order. A pair the splitter could
      not take would be dropped; FeedKeeps shows that none is for a stream
      of in-range pairs within the symbol count. */
  function Feed(c: Config, s: Splitter, syms: seq<(nat, nat)>): Splitter
    decreases |syms|, 2
  {
    if syms == [] then s else FeedLast(c, s, syms)
  }

  /** A non-empty stream is its prefix followed by its last pair. */
  function FeedLast(c: Config, s: Splitter, syms: seq<(nat, nat)>): Splitter
    requires syms != []
    decreases |syms|, 1
  {
    FeedThen(c, s, syms[..|syms| - 1], syms[|syms| - 1])
  }

  /** Adds `syms`, then `x`. */
  function FeedThen(c: Config, s: Splitter, syms: seq<(nat, nat)>, x: (nat, nat)): Splitter
    decreases |syms| + 1, 0
  {
    var t := Feed(c, s, syms);
    if Accepts(c, t, x) then AddSymbolSpec(c, t, x.0, x.1) else t
  }

  /** Feeding one more pair is one more AddSymbol when the splitter takes it. */
  lemma FeedAppend(c: Config, s: Splitter, syms: seq<(nat, nat)>, x: (nat, nat))
    ensures Feed(c, s, syms + [x]) == FeedThen(c, s, syms, x)
  {
    assert (syms + [x])[..|syms|] == syms;
  }

  /** A stream of in-range pairs within the symbol count keeps the splitter
      ready: every pair is taken, each adds one symbol, and below the target
      block size the open block only grows. */
  lemma {:induction false} FeedKeeps(c: Config, s: Splitter, syms: seq<(nat, nat)>)
    requires Ready(c, s) && SymbolsOk(c, syms) && s.symbolsAdded + |syms| <= c.numSymbols
    ensures var r := Feed(c, s, syms);
            && Ready(c, r) && r.symbolsAdded == s.symbolsAdded + |syms|
            && (s.blockSize + |syms| < s.targetBlockSize ==>
                  && r.numBlocks == s.numBlocks
                  && r.blockSize == s.blockSize + |syms|
                  && r.targetBlockSize == s.targetBlockSize)
    decreases |syms|
  {
    if syms != [] {
      var n := |syms| - 1;
      SymbolsOkConcat(c, syms[..n], [syms[n]]);
      assert syms[..n] + [syms[n]] == syms;
      FeedKeeps(c, s, syms[..n]);
      var t := Feed(c, s, syms[..n]);
      assert Accepts(c, t, syms[n]);
      AddSymbolKeeps(c, t, syms[n].0, syms[n].1);
      assert Feed(c, s, syms) == FeedThen(c, s, syms[..n], syms[n]);
    }
  }

  /** Both parts of a stream are in range exactly when the whole is. */
  lemma SymbolsOkConcat(c: Config, a: seq<(nat, nat)>, b: seq<(nat, nat)>)
    ensures SymbolsOk(c, a + b) <==> SymbolsOk(c, a) && SymbolsOk(c, b)
  {
    if SymbolsOk(c, a + b) {
      forall k | 0 <= k < |a| ensures a[k].0 < NumLiteralSymbols && a[k].1 < c.numContexts {
        assert (a + b)[k] == a[k];
      }
      forall k | 0 <= k < |b| ensures b[k].0 < NumLiteralSymbols && b[k].1 < c.numContexts {
        assert (a + b)[|a| + k] == b[k];
      }
    }
  }

  /** Feeding a concatenation is feeding its two parts one after the other. */
  lemma {:induction false} FeedConcat(c: Config, s: Splitter, a: seq<(nat, nat)>, b: seq<(nat, nat)>)
    ensures Feed(c, s, a + b) == Feed(c, Feed(c, s, a), b)
    decreases |b|
  {
    if b == [] {
      assert a + b == a;
    } else {
      var n := |b| - 1;
      var front := b[..n];
      FeedConcat(c, s, a, front);
      assert (a + b)[..|a + b| - 1] == a + front;
      assert (a + b)[|a + b| - 1] == b[n];
      assert Feed(c, s, a + b) == FeedThen(c, s, a + front, b[n]);
      assert Feed(c, Feed(c, s, a), b) == FeedThen(c, Feed(c, s, a), front, b[n]);
    }
  }

  /** The split the greedy driver obtains for a stream of literals. */
  function SplitStream(c: Config, types: seq<Byte>, lengths: seq<nat>, lastEntropy: seq<real>,
                       syms: seq<(nat, nat)>): Splitter
    requires ConfigOk(c)
    requires |types| >= MaxNumBlocks(c) && |lengths| >= MaxNumBlocks(c) && |lastEntropy| == 2 * MaxStaticContexts
    requires SymbolsOk(c, syms) && |syms| <= c.numSymbols
  {
    InitReady(c, types, lengths, lastEntropy);
    FeedKeeps(c, InitSpec(c, types, lengths, lastEntropy), syms);
    var s := Feed(c, InitSpec(c, types, lengths, lastEntropy), syms);
    FinishBlockSpec(c, s, true)
  }

  /** The final split is well formed and its block lengths cover the stream,
      overshooting by at most the padding of the last block. */
  lemma SplitStreamCovers(c: Config, types: seq<Byte>, lengths: seq<nat>, lastEntropy: seq<real>,
                          syms: seq<(nat, nat)>)
    requires ConfigOk(c)
    requires |types| >= MaxNumBlocks(c) && |lengths| >= MaxNumBlocks(c) && |lastEntropy| == 2 * MaxStaticContexts
    requires SymbolsOk(c, syms) && |syms| <= c.numSymbols
    ensures var r := SplitStream(c, types, lengths, lastEntropy, syms);
            && FinalSplit(c, r)
            && |syms| <= Sum(r.lengths[..r.numBlocks]) <= |syms| + c.minBlockSize
  {
    InitReady(c, types, lengths, lastEntropy);
    FeedKeeps(c, InitSpec(c, types, lengths, lastEntropy), syms);
    var s := Feed(c, InitSpec(c, types, lengths, lastEntropy), syms);
    FinishBlockKeeps(c, s, true);
  }

  /** A stream shorter than the minimum block size becomes one block of
      type 0, padded to the minimum block size. */
  lemma ShortStreamOneBlock(c: Config, types: seq<Byte>, lengths: seq<nat>, lastEntropy: seq<real>,
                            syms: seq<(nat, nat)>)
    requires ConfigOk(c)
    requires |types| >= MaxNumBlocks(c) && |lengths| >= MaxNumBlocks(c) && |lastEntropy| == 2 * MaxStaticContexts
    requires SymbolsOk(c, syms) && |syms| <= c.numSymbols && |syms| < c.minBlockSize
    ensures var r := SplitStream(c, types, lengths, lastEntropy, syms);
            && r.numBlocks == 1 && r.numTypes == 1 && |r.types| >= 1 && |r.lengths| >= 1
            && r.types[0] == 0 && r.lengths[0] == c.minBlockSize
  {
    InitReady(c, types, lengths, lastEntropy);
    FeedKeeps(c, InitSpec(c, types, lengths, lastEntropy), syms);
    var s := Feed(c, InitSpec(c, types, lengths, lastEntropy), syms);
    assert s.numBlocks == 0;
  }
}
