/** MetaBlockSplit of metablock.go and the construction of its literal
    context map (context maps are those of section 7.3 of RFC 7932): a map
    of `num_types << 6` entries, one per block type and 6-bit literal
    context, built either from a static per-context map or by clustering
    per-type histograms and spreading each type's cluster over its 64
    contexts. */
module MetaBlocks {
  import opened Common
  import opened BlockSplits
  import BlockSplitter

  // A literal block type has 64 contexts (`1 << BROTLI_LITERAL_CONTEXT_BITS`);
  // the literal 64 is written out below so that products stay linear.

  /** The context map of MapStaticContexts: the entry for block type `i`
      and literal context `j` is `i * numContexts + staticContextMap[j]`,
      computed on uint32. */
  function StaticContextMap(numTypes: nat, numContexts: nat, staticContextMap: seq<U32>): (r: seq<U32>)
    requires |staticContextMap| >= 64
    ensures |r| == numTypes * 64
  {
    seq(numTypes * 64, k requires 0 <= k < numTypes * 64 =>
      Wrap32(Wrap32(k / 64 * numContexts) + staticContextMap[k % 64]))
  }

  /** A context map whose first `numTypes` entries are per-type cluster
      ids, spread so that every context of type `i` maps to the id at `i`. */
  function Broadcast(m: seq<U32>, numTypes: nat): (r: seq<U32>)
    requires numTypes * 64 <= |m|
    ensures |r| == |m|
  {
    seq(|m|, k requires 0 <= k < |m| => if k < numTypes * 64 then m[k / 64] else m[k])
  }

  /** Entry `(i << 6) + j` is the flat index of type `i`, context `j`. */
  lemma FlatIndex(i: nat, j: nat)
    requires j < 64
    ensures (i * 64 + j) / 64 == i
    ensures (i * 64 + j) % 64 == j
  {
    BlockSplitter.DivModUnique(i * 64 + j, 64, i, j);
  }

  /** The static context map, read by type and context. */
  lemma StaticContextMapEntry(numTypes: nat, numContexts: nat, staticContextMap: seq<U32>, i: nat, j: nat)
    requires |staticContextMap| >= 64 && i < numTypes && j < 64
    ensures i * 64 + j < numTypes * 64
    ensures StaticContextMap(numTypes, numContexts, staticContextMap)[i * 64 + j]
            == Wrap32(Wrap32(i * numContexts) + staticContextMap[j])
  {
    FlatIndex(i, j);
  }

  /** With entries of the static map below `numContexts` and no uint32
      wrap-around, type `i` owns the ids `i * numContexts` up to
      `(i + 1) * numContexts - 1`: distinct types never share a histogram. */
  lemma StaticContextMapOwnsSlots(numTypes: nat, numContexts: nat, staticContextMap: seq<U32>, i: nat, j: nat)
    requires |staticContextMap| >= 64 && i < numTypes && j < 64
    requires forall k :: 0 <= k < 64 ==> staticContextMap[k] < numContexts
    requires numTypes * numContexts <= 0x1_0000_0000
    ensures i * 64 + j < numTypes * 64
    ensures i * numContexts <= StaticContextMap(numTypes, numContexts, staticContextMap)[i * 64 + j]
            < (i + 1) * numContexts
  {
    StaticContextMapEntry(numTypes, numContexts, staticContextMap, i, j);
    assert (i + 1) * numContexts <= numTypes * numContexts by {
      MulLe(i + 1, numTypes, numContexts);
    }
  }

  lemma MulLe(a: nat, b: nat, m: nat)
    requires a <= b
    ensures a * m <= b * m
  {
  }

  /** The broadcast, read by type and context. */
  lemma BroadcastEntry(m: seq<U32>, numTypes: nat, i: nat, j: nat)
    requires numTypes * 64 <= |m| && i < numTypes && j < 64
    ensures i * 64 + j < numTypes * 64
    ensures Broadcast(m, numTypes)[i * 64 + j] == m[i]
  {
    FlatIndex(i, j);
  }

  /** One step of a broadcast: the 64 entries of type `i` get the id that
      is at index `i` when the step runs. */
  function SpreadType(m: seq<U32>, i: nat): (r: seq<U32>)
    requires i < |m|
    ensures |r| == |m|
    ensures forall k :: 0 <= k < |m| ==> r[k] == if i * 64 <= k < i * 64 + 64 then m[i] else m[k]
  {
    seq(|m|, k requires 0 <= k < |m| => if i * 64 <= k < i * 64 + 64 then m[i] else m[k])
  }

  /** The same steps taken in ascending type order, from type `i` on. */
  function AscendingBroadcast(m: seq<U32>, numTypes: nat, i: nat): (r: seq<U32>)
    requires numTypes <= |m|
    ensures |r| == |m|
    decreases numTypes - i
  {
    if i >= numTypes then m else AscendingBroadcast(SpreadType(m, i), numTypes, i + 1)
  }

  /** The ascending steps from type `i` on leave the entries of the
      types below `i` alone. */
  lemma {:induction false} AscendingKeepsBelow(m: seq<U32>, numTypes: nat, i: nat, k: nat)
    requires numTypes <= |m| && k < i * 64 && k < |m|
    ensures AscendingBroadcast(m, numTypes, i)[k] == m[k]
    decreases numTypes - i
  {
    if i < numTypes {
      AscendingKeepsBelow(SpreadType(m, i), numTypes, i + 1, k);
    }
  }

  /** Spreading in ascending type order instead would be wrong: type 0
      overwrites the id of type 1 before it is read, so whenever the first
      two ids differ, type 1 ends up with the id of type 0, where the
      descending broadcast keeps its own. */
  lemma AscendingBroadcastLosesIds(m: seq<U32>, numTypes: nat)
    requires 2 <= numTypes && numTypes * 64 <= |m| && m[0] != m[1]
    ensures 64 < |m|
    ensures AscendingBroadcast(m, numTypes, 0)[64] == m[0]
    ensures Broadcast(m, numTypes)[64] == m[1] != AscendingBroadcast(m, numTypes, 0)[64]
  {
    MulLe(2, numTypes, 64);
    var afterType0 := SpreadType(m, 0);
    var afterType1 := SpreadType(afterType0, 1);
    assert afterType1[64] == m[0];
    AscendingKeepsBelow(afterType1, numTypes, 2, 64);
    BroadcastEntry(m, numTypes, 1, 0);
  }

  /** MetaBlockSplit: the block splits of the three symbol categories, the
      literal and distance context maps and the histogram counts. The
      histograms themselves are those the splitters and the clustering
      fill; only the literal ones are kept here. */
  class MetaBlockSplit {
    const literalSplit: BlockSplit
    const commandSplit: BlockSplit
    const distanceSplit: BlockSplit
    var literalContextMap: array<U32>
    var literalContextMapSize: nat
    var distanceContextMap: array<U32>
    var distanceContextMapSize: nat
    var literalHistograms: seq<seq<nat>>
    var literalHistogramsSize: nat
    var commandHistogramsSize: nat
    var distanceHistogramsSize: nat

    /** The three splits are distinct objects and the context maps are
        distinct arrays of their recorded sizes. */
    predicate Valid()
      reads this
    {
      && literalSplit != commandSplit && literalSplit != distanceSplit && commandSplit != distanceSplit
      && literalContextMap != distanceContextMap
      && literalContextMap.Length == literalContextMapSize
      && distanceContextMap.Length == distanceContextMapSize
    }

    /** InitMetaBlockSplit: three empty splits, empty context maps and no
        histograms. */
    constructor Init()
      ensures Valid() && literalSplit.Valid() && commandSplit.Valid() && distanceSplit.Valid()
      ensures fresh(literalSplit) && fresh(commandSplit) && fresh(distanceSplit)
      ensures literalSplit.numTypes == 0 && literalSplit.numBlocks == 0 && literalSplit.types == [] && literalSplit.lengths == []
      ensures commandSplit.numTypes == 0 && commandSplit.numBlocks == 0 && commandSplit.types == [] && commandSplit.lengths == []
      ensures distanceSplit.numTypes == 0 && distanceSplit.numBlocks == 0 && distanceSplit.types == [] && distanceSplit.lengths == []
      ensures literalContextMapSize == 0 && distanceContextMapSize == 0
      ensures literalHistograms == [] && literalHistogramsSize == 0
      ensures commandHistogramsSize == 0 && distanceHistogramsSize == 0
    {
      literalSplit := new BlockSplit.Init();
      commandSplit := new BlockSplit.Init();
      distanceSplit := new BlockSplit.Init();
      literalContextMap := new U32[0];
      literalContextMapSize := 0;
      distanceContextMap := new U32[0];
      distanceContextMapSize := 0;
      literalHistograms := [];
      literalHistogramsSize := 0;
      commandHistogramsSize := 0;
      distanceHistogramsSize := 0;
    }

    /** MapStaticContexts: a new literal context map of `num_types << 6`
        entries, each type's contexts mapped through the static map to that
        type's own group of `numContexts` histograms. */
    method MapStaticContexts(numContexts: nat, staticContextMap: seq<U32>)
      requires Valid() && |staticContextMap| >= 64
      modifies this
      ensures Valid() && fresh(literalContextMap)
      ensures literalContextMapSize == literalSplit.numTypes * 64
      ensures literalContextMap[..] == StaticContextMap(literalSplit.numTypes, numContexts, staticContextMap)
      ensures distanceContextMap == old(distanceContextMap) && distanceContextMapSize == old(distanceContextMapSize)
      ensures literalHistograms == old(literalHistograms) && literalHistogramsSize == old(literalHistogramsSize)
      ensures commandHistogramsSize == old(commandHistogramsSize) && distanceHistogramsSize == old(distanceHistogramsSize)
    {
      var numTypes := literalSplit.numTypes;
      ghost var target := StaticContextMap(numTypes, numContexts, staticContextMap);
      literalContextMapSize := numTypes * 64;
      var m := new U32[literalContextMapSize];
      var i := 0;
      while i < numTypes
        invariant i <= numTypes
        invariant forall k :: 0 <= k < i * 64 ==> m[k] == target[k]
        modifies m
      {
        var offset := Wrap32(i * numContexts);
        var j := 0;
        while j < 64
          invariant j <= 64
          invariant forall k :: 0 <= k < i * 64 + j ==> m[k] == target[k]
          modifies m
        {
          FlatIndex(i, j);
          m[i * 64 + j] := Wrap32(offset as int + staticContextMap[j]);
          j := j + 1;
        }
        i := i + 1;
      }
      literalContextMap := m;
    }

    /** The broadcast of BrotliBuildMetaBlock when literal context modelling
        is off: entries `0 .. num_types-1` hold one cluster id per type, and
        each type's id is copied to all 64 of its contexts. Types are
        visited in descending order, so the id at index `i` is read before
        any write reaches it. */
    method BroadcastContextMap()
      requires Valid() && literalSplit.numTypes * 64 <= literalContextMap.Length
      modifies literalContextMap
      ensures literalContextMap[..] == Broadcast(old(literalContextMap[..]), literalSplit.numTypes)
    {
      var m := literalContextMap;
      var n := literalSplit.numTypes;
      var i: nat := n;
      while i != 0
        invariant i <= n && n * 64 <= m.Length
        invariant forall k :: i * 64 <= k < n * 64 ==> k / 64 < n && m[k] == old(m[k / 64])
        invariant forall k :: 0 <= k < i * 64 ==> m[k] == old(m[k])
        invariant forall k :: n * 64 <= k < m.Length ==> m[k] == old(m[k])
      {
        i := i - 1;
        MulLe(i + 1, n, 64);
        FillType(m, i, i * 64);
        forall k | i * 64 <= k < (i + 1) * 64
          ensures k / 64 == i
          ensures k / 64 < n && m[k] == old(m[k / 64])
        {
          FlatIndex(i, k - i * 64);
        }
      }
    }
  }

  /** Copies the cluster id at index `i` to the 64 entries of type `i`,
      which start at `base`; nothing else changes. */
  method FillType(m: array<U32>, i: nat, base: nat)
    requires i <= base && base + 64 <= m.Length
    modifies m
    ensures forall k :: base <= k < base + 64 ==> m[k] == old(m[i])
    ensures forall k :: 0 <= k < m.Length && !(base <= k < base + 64) ==> m[k] == old(m[k])
  {
    var id := m[i];
    var j := 0;
    while j < 64
      invariant j <= 64
      invariant forall k :: base <= k < base + j ==> m[k] == id
      invariant forall k :: 0 <= k < m.Length && !(base <= k < base + j) ==> m[k] == old(m[k])
    {
      m[base + j] := id;
      j := j + 1;
    }
  }
}
