/** ContextBlockSplitter of metablock.go as a class. Its fields are those of
    the source; the BlockSplit it fills, the caller's histograms and the
    entropy cache are sequence fields its methods reassign. Every method is proved to perform
    exactly the transition of context_splitter_spec.dfy on `Snap()`, the
    value view of all that state, so the guarantees proved there (bounds,
    type budget, length accounting) hold of this code. */
module ContextSplitters {
  import opened Common
  import opened ContextSplitterSpec
  import opened BlockSplits

  /** The slot offset of a type is the product the source computes. */
  lemma {:induction false} SlotIsProduct(t: nat, n: nat)
    ensures SlotOf(t, n) == t * n
  {
    if t > 0 {
      SlotIsProduct(t - 1, n);
      assert t * n == (t - 1) * n + n;
    }
  }

  /** The first histogram index of type `t`'s slot group, `t * n`. */
  method SlotOffset(t: nat, n: nat) returns (r: nat)
    ensures r == SlotOf(t, n)
  {
    r := t * n;
    SlotIsProduct(t, n);
  }

  /** A slot group that starts below the slot of type `t1` ends at or before it. */
  lemma {:induction false} SlotRoom(t0: nat, t1: nat, n: nat)
    requires SlotOf(t0, n) < SlotOf(t1, n)
    ensures SlotOf(t0, n) + n <= SlotOf(t1, n)
  {
    if t0 < t1 {
      SlotsOrdered(t0, t1, n);
    } else if t1 < t0 {
      SlotsOrdered(t1, t0, n);
    }
  }

  /** Between calls, a slot group opened past the current one lies inside the histogram array. */
  lemma NextSlotsFit(c: Config, s: Splitter)
    requires Inv(c, s)
    ensures s.currHistogramIx + c.numContexts < s.histogramsSize ==>
              s.currHistogramIx + 2 * c.numContexts <= |s.histograms|
  {
    var nc := c.numContexts;
    if s.currHistogramIx + nc < s.histogramsSize {
      assert SlotOf(s.numTypes + 1, nc) == s.currHistogramIx + nc;
      SlotRoom(s.numTypes + 1, MaxNumTypes(c), nc);
    }
  }

  /** Clearing histograms that are all empty changes nothing. */
  lemma ClearSlotsOfEmpty(h: seq<seq<nat>>, from: nat, n: nat)
    requires forall k :: 0 <= k < |h| ==> h[k] == ZeroCounts(NumLiteralSymbols)
    ensures ClearSlots(h, from, n) == h
  {
  }

  /** The sizes InitContextBlockSplitter computes are those of the specification. */
  lemma InitSizes(c: Config, maxNumBlocks: nat, maxNumTypes: nat)
    requires ConfigOk(c) && maxNumBlocks == c.numSymbols / c.minBlockSize + 1
    requires maxNumTypes == if maxNumBlocks < MaxNumberOfBlockTypes / c.numContexts + 1
                            then maxNumBlocks else MaxNumberOfBlockTypes / c.numContexts + 1
    ensures maxNumBlocks == MaxNumBlocks(c) && maxNumTypes == MaxNumTypes(c)
    ensures maxNumTypes * c.numContexts == SlotOf(MaxNumTypes(c), c.numContexts)
    ensures c.numContexts <= maxNumTypes * c.numContexts
  {
    SlotIsProduct(maxNumTypes, c.numContexts);
  }

  /** One more context adds its gain to the running sum. */
  lemma GainsGrow(entropy: seq<real>, merged: seq<real>, cached: seq<real>, off: nat, e: real, m: real)
    requires |merged| == |entropy| && off + |entropy| < |cached|
    ensures Gains(entropy + [e], merged + [m], cached, off)
         == Gains(entropy, merged, cached, off) + (m - e - cached[off + |entropy|])
  {
    assert (entropy + [e])[..|entropy|] == entropy;
    assert (merged + [m])[..|entropy|] == merged;
  }

  /** The loop of FinishBlock that prices both merges: per context, the
      entropy of the open block's histogram, its sums with the histograms of
      the last (row 0) and second-last (row 1) type and their entropies, and
      the summed entropy gains the decision is made on. The splitter's state
      is passed in as values. The two rows of `combined_histo` and
      `combined_entropy` are returned as separate sequences; the gains are
      summed after the loop, in the same order of contexts. */
  method MergeCosts(ghost c: Config, bitsEntropy: seq<nat> -> real, alphabetSize: nat,
                    nc: nat, h: seq<seq<nat>>, le: seq<real>, curr: nat, last0: nat, last1: nat)
    returns (entropy: seq<real>, combined0: seq<seq<nat>>, combined1: seq<seq<nat>>,
             combinedEntropy0: seq<real>, combinedEntropy1: seq<real>, diff0: real, diff1: real)
    requires c.entropy == bitsEntropy && c.alphabetSize == alphabetSize && alphabetSize <= NumLiteralSymbols
    requires curr + nc <= |h| && last0 + nc <= |h| && last1 + nc <= |h| && 2 * nc <= |le|
    requires forall k :: 0 <= k < |h| ==> |h[k]| == NumLiteralSymbols
    ensures entropy == SlotEntropies(c, h, curr, nc)
    ensures combined0 == MergedHistograms(h, curr, last0, nc)
    ensures combined1 == MergedHistograms(h, curr, last1, nc)
    ensures combinedEntropy0 == MergedEntropies(c, h, curr, last0, nc)
    ensures combinedEntropy1 == MergedEntropies(c, h, curr, last1, nc)
    ensures diff0 == Gains(entropy, combinedEntropy0, le, 0)
    ensures diff1 == Gains(entropy, combinedEntropy1, le, nc)
  {
    entropy, combined0, combined1, combinedEntropy0, combinedEntropy1 := [], [], [], [], [];
    var i := 0;
    while i < nc
      invariant i <= nc
      invariant |entropy| == i && |combined0| == i && |combined1| == i
      invariant |combinedEntropy0| == i && |combinedEntropy1| == i
      invariant forall k {:trigger entropy[k]} :: 0 <= k < i ==> entropy[k] == Entropy(c, h[curr + k])
      invariant forall k {:trigger combined0[k]} :: 0 <= k < i ==> combined0[k] == AddCounts(h[curr + k], h[last0 + k])
      invariant forall k {:trigger combined1[k]} :: 0 <= k < i ==> combined1[k] == AddCounts(h[curr + k], h[last1 + k])
      invariant forall k {:trigger combinedEntropy0[k]} :: 0 <= k < i ==> combinedEntropy0[k] == Entropy(c, combined0[k])
      invariant forall k {:trigger combinedEntropy1[k]} :: 0 <= k < i ==> combinedEntropy1[k] == Entropy(c, combined1[k])
    {
      var currIx := curr + i;
      var e := BitsEntropy(bitsEntropy, h[currIx], alphabetSize);
      // j = 0: the last type
      var x0 := AddCounts(h[currIx], h[last0 + i]);
      var e0 := BitsEntropy(bitsEntropy, x0, alphabetSize);
      // j = 1: the second-last type
      var x1 := AddCounts(h[currIx], h[last1 + i]);
      var e1 := BitsEntropy(bitsEntropy, x1, alphabetSize);
      entropy, combined0, combined1 := entropy + [e], combined0 + [x0], combined1 + [x1];
      combinedEntropy0, combinedEntropy1 := combinedEntropy0 + [e0], combinedEntropy1 + [e1];
      i := i + 1;
    }
    diff0 := SumGains(entropy, combinedEntropy0, le, 0);
    diff1 := SumGains(entropy, combinedEntropy1, le, nc);
  }

  /** The summed entropy gains of merging the open block into one cached
      type: per context, the merged entropy less the open block's and the
      cached type's. */
  method SumGains(entropy: seq<real>, merged: seq<real>, cached: seq<real>, off: nat) returns (diff: real)
    requires |merged| == |entropy| && off + |entropy| <= |cached|
    ensures diff == Gains(entropy, merged, cached, off)
  {
    diff := 0.0;
    var i := 0;
    while i < |entropy|
      invariant i <= |entropy|
      invariant diff == Gains(entropy[..i], merged[..i], cached, off)
    {
      assert entropy[..i + 1] == entropy[..i] + [entropy[i]] && merged[..i + 1] == merged[..i] + [merged[i]];
      GainsGrow(entropy[..i], merged[..i], cached, off, entropy[i], merged[i]);
      diff := diff + (merged[i] - entropy[i] - cached[off + i]);
      i := i + 1;
    }
    assert entropy[..i] == entropy && merged[..i] == merged;
  }

  /** The values the new-type branch computes: the new type's first slot,
      the shifted cached rows and, when the next slot group exists, the
      histograms with that group cleared. */
  method NewTypeValues(h: seq<seq<nat>>, le: seq<real>, entropy: seq<real>, t: nat, nc: nat,
                       curr: nat, size: nat) returns (slot: nat, le2: seq<real>, h2: seq<seq<nat>>)
    requires nc == |entropy| && 2 * nc <= |le|
    requires curr + nc < size ==> curr + 2 * nc <= |h|
    ensures slot == SlotOf(t, nc)
    ensures le2 == SetRows(le, nc, entropy, le[..nc])
    ensures h2 == if curr + nc < size then ClearSlots(h, curr + nc, nc) else h
  {
    slot := SlotOffset(t, nc);
    le2 := NewTypeRows(le, entropy, nc);
    h2 := h;
    if curr + nc < size {
      h2 := ClearHistograms(h, curr + nc, nc);
    }
  }

  /** ClearHistogramsLiteral: empties the `n` histograms from `from` on. */
  method ClearHistograms(h: seq<seq<nat>>, from: nat, n: nat) returns (r: seq<seq<nat>>)
    requires from + n <= |h|
    ensures r == ClearSlots(h, from, n)
  {
    r := h;
    var i := 0;
    while i < n
      invariant 0 <= i <= n && |r| == |h|
      invariant forall k {:trigger r[k]} :: 0 <= k < |r| ==>
        r[k] == if from <= k < from + i then ZeroCounts(NumLiteralSymbols) else h[k]
    {
      r := r[from + i := ZeroCounts(NumLiteralSymbols)];
      i := i + 1;
    }
  }

  /** The loop of the first block: both cached rows get the entropies of the
      first slot group. */
  method FirstRows(ghost c: Config, bitsEntropy: seq<nat> -> real, alphabetSize: nat,
                   nc: nat, h: seq<seq<nat>>, le: seq<real>) returns (r: seq<real>)
    requires c.entropy == bitsEntropy && c.alphabetSize == alphabetSize
    requires nc <= |h| && 2 * nc <= |le|
    requires forall k :: 0 <= k < |h| ==> alphabetSize <= |h[k]|
    ensures var ent := SlotEntropies(c, h, 0, nc); r == SetRows(le, nc, ent, ent)
  {
    r := le;
    var i := 0;
    while i < nc
      invariant i <= nc && |r| == |le|
      invariant forall k {:trigger r[k]} :: 0 <= k < |r| ==>
        r[k] == if k < i then Entropy(c, h[k])
                else if nc <= k < nc + i then Entropy(c, h[k - nc])
                else le[k]
    {
      r := r[i := BitsEntropy(bitsEntropy, h[i], alphabetSize)];
      r := r[nc + i := r[i]];
      i := i + 1;
    }
  }

  /** The loop of the new-type branch: the cached row of the last type moves
      to the second-last row and the open block's entropies become the last. */
  method NewTypeRows(le: seq<real>, entropy: seq<real>, nc: nat) returns (r: seq<real>)
    requires nc == |entropy| && 2 * nc <= |le|
    ensures r == SetRows(le, nc, entropy, le[..nc])
  {
    r := le;
    var i := 0;
    while i < nc
      invariant i <= nc && |r| == |le|
      invariant forall k {:trigger r[k]} :: 0 <= k < |r| ==>
        r[k] == if k < i then entropy[k] else if nc <= k < nc + i then le[k - nc] else le[k]
    {
      r := r[nc + i := r[i]];
      r := r[i := entropy[i]];
      i := i + 1;
    }
  }

  /** The loop of the second-last branch: the merged histograms of row 1
      replace the slots at `dst`, the open block's slots are cleared, the
      last type's cached row moves to the second-last row and row 1's
      entropies become the last. */
  method MergeIntoSecondLast(h: seq<seq<nat>>, le: seq<real>, combined1: seq<seq<nat>>,
                             combinedEntropy1: seq<real>, curr: nat, dst: nat, nc: nat)
    returns (h2: seq<seq<nat>>, le2: seq<real>)
    requires dst + nc <= curr && curr + nc <= |h|
    requires forall k :: 0 <= k < |h| ==> |h[k]| == NumLiteralSymbols
    requires |combinedEntropy1| == nc && 2 * nc <= |le|
    requires combined1 == MergedHistograms(h, curr, dst, nc)
    ensures h2 == MergeSlots(h, curr, dst, nc)
    ensures le2 == SetRows(le, nc, combinedEntropy1, le[..nc])
  {
    h2, le2 := h, le;
    var i := 0;
    while i < nc
      invariant i <= nc && |h2| == |h| && |le2| == |le|
      invariant forall k {:trigger h2[k]} :: 0 <= k < |h2| ==>
        h2[k] == if dst <= k < dst + i then AddCounts(h[curr + (k - dst)], h[k])
                 else if curr <= k < curr + i then ZeroCounts(NumLiteralSymbols)
                 else h[k]
      invariant forall k {:trigger le2[k]} :: 0 <= k < |le2| ==>
        le2[k] == if k < i then combinedEntropy1[k] else if nc <= k < nc + i then le[k - nc] else le[k]
    {
      h2 := h2[dst + i := combined1[i]];
      le2 := le2[nc + i := le2[i]];
      le2 := le2[i := combinedEntropy1[i]];
      h2 := h2[curr + i := ZeroCounts(NumLiteralSymbols)];
      i := i + 1;
    }
  }

  /** The loop of the merge-last branch: the merged histograms of row 0
      replace the slots at `dst`, the open block's slots are cleared and row
      0's entropies become the last type's cached row, and also the
      second-last row while there is only one type. */
  method MergeIntoLast(h: seq<seq<nat>>, le: seq<real>, combined0: seq<seq<nat>>,
                       combinedEntropy0: seq<real>, curr: nat, dst: nat, nc: nat, oneType: bool)
    returns (h2: seq<seq<nat>>, le2: seq<real>)
    requires dst + nc <= curr && curr + nc <= |h|
    requires forall k :: 0 <= k < |h| ==> |h[k]| == NumLiteralSymbols
    requires |combinedEntropy0| == nc && 2 * nc <= |le|
    requires combined0 == MergedHistograms(h, curr, dst, nc)
    ensures h2 == MergeSlots(h, curr, dst, nc)
    ensures le2 == SetRows(le, nc, combinedEntropy0, if oneType then combinedEntropy0 else le[nc..2 * nc])
  {
    h2, le2 := h, le;
    var i := 0;
    while i < nc
      invariant i <= nc && |h2| == |h| && |le2| == |le|
      invariant forall k {:trigger h2[k]} :: 0 <= k < |h2| ==>
        h2[k] == if dst <= k < dst + i then AddCounts(h[curr + (k - dst)], h[k])
                 else if curr <= k < curr + i then ZeroCounts(NumLiteralSymbols)
                 else h[k]
      invariant forall k {:trigger le2[k]} :: 0 <= k < |le2| ==>
        le2[k] == if k < i then combinedEntropy0[k]
                  else if oneType && nc <= k < nc + i then combinedEntropy0[k - nc]
                  else le[k]
    {
      h2 := h2[dst + i := combined0[i]];
      le2 := le2[i := combinedEntropy0[i]];
      if oneType {
        le2 := le2[nc + i := le2[i]];
      }
      h2 := h2[curr + i := ZeroCounts(NumLiteralSymbols)];
      i := i + 1;
    }
  }

  class ContextBlockSplitter {
    const alphabetSize: nat
    const numContexts: nat
    const maxBlockTypes: nat
    const minBlockSize: nat
    const splitThreshold: real
    /** BitsEntropy: the estimated coding cost of a sequence of counts. */
    const bitsEntropy: seq<nat> -> real
    /** The symbol count given to Init; the source uses it only to size the arrays. */
    ghost const numSymbols: nat
    var numBlocks: nat
    const split: BlockSplit
    /** The caller's histograms, one per context of each block type. */
    var histograms: seq<seq<nat>>
    /** The caller's histogram count, which the source updates through a pointer. */
    var histogramsSize: nat
    var targetBlockSize: nat
    var blockSize: nat
    var currHistogramIx: nat
    var lastHistogramIx: seq<nat>
    var lastEntropy: seq<real>
    var mergeLastCount: nat
    /** Symbols added since Init. */
    ghost var symbolsAdded: nat

    ghost function Cfg(): Config {
      Config(alphabetSize, numContexts, maxBlockTypes, minBlockSize, splitThreshold, numSymbols, bitsEntropy)
    }

    /** The whole state as a value of the specification. */
    ghost function Snap(): Splitter
      reads this, split
    {
      Splitter(numBlocks, split.numTypes, split.numBlocks, split.types, split.lengths,
               histograms, histogramsSize, targetBlockSize, blockSize, currHistogramIx,
               lastHistogramIx, lastEntropy, mergeLastCount, symbolsAdded)
    }

    /** InitContextBlockSplitter. The split must be freshly initialised (no
        types yet); its arrays are grown to `max_num_blocks`, all histograms
        start empty and the first slot group is cleared. */
    constructor Init(alphabetSize: nat, numContexts: nat, minBlockSize: nat, splitThreshold: real,
                     numSymbols: nat, split: BlockSplit, bitsEntropy: seq<nat> -> real)
      requires 1 <= numContexts <= MaxStaticContexts && minBlockSize > 0 && alphabetSize <= NumLiteralSymbols
      requires split.Valid() && split.numTypes == 0
      modifies split
      ensures this.split == split && split.Valid()
      ensures Cfg() == Config(alphabetSize, numContexts, MaxNumberOfBlockTypes / numContexts,
                              minBlockSize, splitThreshold, numSymbols, bitsEntropy)
      ensures ConfigOk(Cfg())
      ensures lastEntropy == seq(2 * MaxStaticContexts, _ => 0.0)
      ensures Snap() == InitSpec(Cfg(), split.types, split.lengths, lastEntropy)
      ensures |split.types| >= MaxNumBlocks(Cfg()) && |split.lengths| >= MaxNumBlocks(Cfg())
    {
      var maxNumBlocks := numSymbols / minBlockSize + 1;
      // One histogram more than the type budget holds the open block when the
      // meta-block is too big.
      var maxNumTypes := if maxNumBlocks < MaxNumberOfBlockTypes / numContexts + 1
                         then maxNumBlocks else MaxNumberOfBlockTypes / numContexts + 1;
      ghost var c := Config(alphabetSize, numContexts, MaxNumberOfBlockTypes / numContexts,
                            minBlockSize, splitThreshold, numSymbols, bitsEntropy);
      InitSizes(c, maxNumBlocks, maxNumTypes);
      this.alphabetSize := alphabetSize;
      this.numContexts := numContexts;
      this.maxBlockTypes := MaxNumberOfBlockTypes / numContexts;
      this.minBlockSize := minBlockSize;
      this.splitThreshold := splitThreshold;
      this.bitsEntropy := bitsEntropy;
      this.numSymbols := numSymbols;
      numBlocks := 0;
      this.split := split;
      targetBlockSize := minBlockSize;
      blockSize := 0;
      currHistogramIx := 0;
      mergeLastCount := 0;
      symbolsAdded := 0;
      histogramsSize := maxNumTypes * numContexts;
      histograms := seq(maxNumTypes * numContexts, _ => ZeroCounts(NumLiteralSymbols));
      lastEntropy := seq(2 * MaxStaticContexts, _ => 0.0);
      lastHistogramIx := [0, 0];
      new;
      split.EnsureTypesCapacity(maxNumBlocks);
      split.EnsureLengthsCapacity(maxNumBlocks);
      split.numBlocks := maxNumBlocks;
      ghost var zero := histograms;
      histograms := ClearHistograms(histograms, 0, numContexts);
      ClearSlotsOfEmpty(zero, 0, numContexts);
    }

    /** The branch of FinishBlock once a block exists: prices both merges,
        then creates a block of a new type, of the second-last type, or
        merges into the last block. */
    method LaterBlock(ghost s0: Splitter, bs: nat)
      requires Pre(Cfg(), s0) && bs > 0 && s0.numBlocks >= 1
      requires s0.currHistogramIx + numContexts < s0.histogramsSize ==>
                 s0.currHistogramIx + 2 * numContexts <= |s0.histograms|
      requires Snap() == s0.(blockSize := bs)
      modifies this, split
      ensures Snap() == Emit(Cfg(), s0, bs)
    {
      ghost var c := Cfg();
      PreFits(c, s0);
      var entropy, combined0, combined1, combinedEntropy0, combinedEntropy1, diff0, diff1 :=
        MergeCosts(c, bitsEntropy, alphabetSize, numContexts, histograms, lastEntropy,
                   currHistogramIx, lastHistogramIx[0], lastHistogramIx[1]);
      assert diff0 == DiffSum(c, s0, 0) && diff1 == DiffSum(c, s0, 1);
      var d := DecideOn(split.numTypes, maxBlockTypes, splitThreshold, diff0, diff1);
      assert d == Decide(c, s0);
      match d
      case NewBlockType =>
        EmitIsNewType(c, s0, bs);
        var slot, le, h := NewTypeValues(histograms, lastEntropy, entropy, split.numTypes, numContexts,
                                         currHistogramIx, histogramsSize);
        NewTypeStep(s0, bs, slot, le, h);
      case SecondLastType =>
        EmitIsSecondLast(c, s0, bs);
        SecondLastStep(s0, bs, combined1, combinedEntropy1);
      case MergeWithLast =>
        EmitIsMergeLast(c, s0, bs);
        MergeLastStep(s0, bs, combined0, combinedEntropy0);
    }

    /** ContextBlockSplitterFinishBlock: pads the open block to the minimum
        block size, then creates the first block, or prices both merges and
        creates a block of a new type, of the second-last type, or merges
        into the last block. The final call also hands over the number of
        types and blocks. */
    method FinishBlock(isFinal: bool)
      requires Inv(Cfg(), Snap())
      modifies this, split
      ensures Snap() == FinishBlockSpec(Cfg(), old(Snap()), isFinal)
    {
      ghost var c := Cfg();
      ghost var s0 := Snap();
      PreFits(c, s0);
      NextSlotsFit(c, s0);
      if blockSize < minBlockSize {
        blockSize := minBlockSize;
      }
      var bs := blockSize;
      if numBlocks == 0 {
        FirstBlockStep(s0, bs);
        EmitIsFirstBlock(c, s0, bs);
      } else {
        // The source tests `block_size_ > 0` here, which the padding ensures.
        LaterBlock(s0, bs);
      }
      if isFinal {
        histogramsSize := SlotOffset(split.numTypes, numContexts);
        split.numBlocks := numBlocks;
      }
    }

    /** The first block: type 0, both cached rows hold the entropies of the
        first slot group, and the next slot group is cleared. */
    method FirstBlockStep(ghost s0: Splitter, bs: nat)
      requires StepFits(Cfg(), s0) && s0.numBlocks == 0 && s0.currHistogramIx == 0
      requires s0.currHistogramIx + numContexts < s0.histogramsSize ==>
                 s0.currHistogramIx + 2 * numContexts <= |s0.histograms|
      requires Snap() == s0.(blockSize := bs)
      modifies this, split
      ensures Snap() == FirstBlock(Cfg(), s0, bs)
    {
      ghost var c := Cfg();
      ghost var r := FirstBlock(c, s0, bs);
      assert histograms == s0.histograms && lastEntropy == s0.lastEntropy;
      var nc := numContexts;
      var le := FirstRows(c, bitsEntropy, alphabetSize, nc, histograms, lastEntropy);
      var h := histograms;
      if currHistogramIx + nc < histogramsSize {
        h := ClearHistograms(h, currHistogramIx + nc, nc);
      }
      assert le == r.lastEntropy && h == r.histograms;
      split.lengths, split.types, split.numTypes := split.lengths[0 := bs], split.types[0 := 0], split.numTypes + 1;
      lastEntropy, histograms, numBlocks, currHistogramIx, blockSize := le, h, numBlocks + 1, currHistogramIx + nc, 0;
    }

    /** A block of a new type: its slots become those of the last type, the
        former last type becomes the second-last, and the next slot group is
        cleared. */
    method NewTypeStep(ghost s0: Splitter, bs: nat, slot: nat, le: seq<real>, h: seq<seq<nat>>)
      requires StepFits(Cfg(), s0) && s0.numBlocks >= 1 && s0.numTypes < maxBlockTypes
      requires Snap() == s0.(blockSize := bs)
      requires slot == SlotOf(s0.numTypes, numContexts)
      requires le == SetRows(s0.lastEntropy, numContexts,
                             SlotEntropies(Cfg(), s0.histograms, s0.currHistogramIx, numContexts),
                             s0.lastEntropy[..numContexts])
      requires h == if s0.currHistogramIx + numContexts < s0.histogramsSize
                    then ClearSlots(s0.histograms, s0.currHistogramIx + numContexts, numContexts)
                    else s0.histograms
      modifies this, split
      ensures Snap() == NewType(Cfg(), s0, bs)
    {
      var t := split.numTypes;
      split.lengths, split.types, split.numTypes, lastHistogramIx, lastEntropy, histograms,
        numBlocks, currHistogramIx, blockSize, mergeLastCount, targetBlockSize :=
        split.lengths[numBlocks := bs], split.types[numBlocks := t as Byte], t + 1,
        [slot, lastHistogramIx[0]], le, h, numBlocks + 1, currHistogramIx + numContexts, 0, 0, minBlockSize;
    }

    /** A block of the second-last type: the open block's histograms are added
        into that type's slots, the two remembered types swap, and the open
        block's slots are cleared. */
    method SecondLastStep(ghost s0: Splitter, bs: nat, combined1: seq<seq<nat>>, combinedEntropy1: seq<real>)
      requires StepFits(Cfg(), s0) && s0.numBlocks >= 2
      requires Snap() == s0.(blockSize := bs)
      requires combined1 == MergedHistograms(s0.histograms, s0.currHistogramIx, s0.lastHistogramIx[1], numContexts)
      requires combinedEntropy1
               == MergedEntropies(Cfg(), s0.histograms, s0.currHistogramIx, s0.lastHistogramIx[1], numContexts)
      modifies this, split
      ensures Snap() == SecondLast(Cfg(), s0, bs)
    {
      ghost var c := Cfg();
      ghost var r := SecondLast(c, s0, bs);
      var nc := numContexts;
      var last := lastHistogramIx[1];
      var h, le := MergeIntoSecondLast(histograms, lastEntropy, combined1, combinedEntropy1,
                                       currHistogramIx, last, nc);
      assert le == r.lastEntropy && h == r.histograms;
      split.lengths, split.types :=
        split.lengths[numBlocks := bs], split.types[numBlocks := split.types[numBlocks - 2]];
      lastHistogramIx, lastEntropy, histograms := [last, lastHistogramIx[0]], le, h;
      numBlocks, blockSize, mergeLastCount, targetBlockSize := numBlocks + 1, 0, 0, minBlockSize;
    }

    /** Merging into the last block: its length grows, the open block's
        histograms are added into the last type's slots and cleared. */
    method MergeLastStep(ghost s0: Splitter, bs: nat, combined0: seq<seq<nat>>, combinedEntropy0: seq<real>)
      requires StepFits(Cfg(), s0) && s0.numBlocks >= 1
      requires Snap() == s0.(blockSize := bs)
      requires combined0 == MergedHistograms(s0.histograms, s0.currHistogramIx, s0.lastHistogramIx[0], numContexts)
      requires combinedEntropy0
               == MergedEntropies(Cfg(), s0.histograms, s0.currHistogramIx, s0.lastHistogramIx[0], numContexts)
      modifies this, split
      ensures Snap() == MergeLast(Cfg(), s0, bs)
    {
      ghost var c := Cfg();
      ghost var r := MergeLast(c, s0, bs);
      var nc := numContexts;
      var h, le := MergeIntoLast(histograms, lastEntropy, combined0, combinedEntropy0,
                                 currHistogramIx, lastHistogramIx[0], nc, split.numTypes == 1);
      assert le == r.lastEntropy && h == r.histograms;
      split.lengths := split.lengths[numBlocks - 1 := split.lengths[numBlocks - 1] + bs];
      lastEntropy, histograms, blockSize, mergeLastCount := le, h, 0, mergeLastCount + 1;
      if mergeLastCount > 1 {
        targetBlockSize := targetBlockSize + minBlockSize;
      }
    }

    /** ContextBlockSplitterAddSymbol: counts the symbol in the open block's
        histogram for its context, and finishes the block once it reaches the
        target size. */
    method AddSymbol(symbol: nat, context: nat)
      requires Ready(Cfg(), Snap()) && symbol < NumLiteralSymbols && context < numContexts
      requires symbolsAdded < numSymbols
      modifies this, split
      ensures Snap() == AddSymbolSpec(Cfg(), old(Snap()), symbol, context)
    {
      ghost var c := Cfg();
      ghost var s0 := Snap();
      CountedKeeps(c, s0, symbol, context);
      var ix := currHistogramIx + context;
      histograms := histograms[ix := histograms[ix][symbol := histograms[ix][symbol] + 1]];
      blockSize := blockSize + 1;
      symbolsAdded := symbolsAdded + 1;
      assert Snap() == Counted(c, s0, symbol, context);
      if blockSize == targetBlockSize {
        FinishBlock(false);
      }
    }
  }
}
