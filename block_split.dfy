/** BlockSplit of block_splitter.go: the sequence of block types and block
    lengths of one symbol category (literals, commands or distances), with
    the allocated sizes of its two slices. Block types and block switching
    are those of section 6 of RFC 7932. The slices, which the encoder grows
    and overwrites, are sequence fields that the methods reassign. */
module BlockSplits {
  import opened Common

  class BlockSplit {
    var numTypes: nat
    var numBlocks: nat
    var types: seq<Byte>
    var lengths: seq<nat>
    var typesAllocSize: nat
    var lengthsAllocSize: nat

    /** The allocation sizes are those of the slices. */
    predicate Valid()
      reads this
    {
      typesAllocSize == |types| && lengthsAllocSize == |lengths|
    }

    /** BrotliInitBlockSplit: no types, no blocks, nothing allocated. */
    constructor Init()
      ensures Valid()
      ensures numTypes == 0 && numBlocks == 0
      ensures types == [] && lengths == []
    {
      numTypes := 0;
      numBlocks := 0;
      types := [];
      lengths := [];
      typesAllocSize := 0;
      lengthsAllocSize := 0;
    }

    /** Growing the types slice to at least `n` entries; the entries already
        there are kept, new ones are zero, and nothing else changes. */
    method EnsureTypesCapacity(n: nat)
      requires Valid()
      modifies this
      ensures Valid()
      ensures |types| == if n <= old(|types|) then old(|types|) else n
      ensures types[..old(|types|)] == old(types)
      ensures forall k :: old(|types|) <= k < |types| ==> types[k] == 0
      ensures numTypes == old(numTypes) && numBlocks == old(numBlocks)
      ensures lengths == old(lengths) && lengthsAllocSize == old(lengthsAllocSize)
    {
      if |types| < n {
        types := types + seq(n - |types|, _ => 0);
        typesAllocSize := n;
      }
    }

    /** Growing the lengths slice to at least `n` entries; the entries already
        there are kept, new ones are zero, and nothing else changes. */
    method EnsureLengthsCapacity(n: nat)
      requires Valid()
      modifies this
      ensures Valid()
      ensures |lengths| == if n <= old(|lengths|) then old(|lengths|) else n
      ensures lengths[..old(|lengths|)] == old(lengths)
      ensures forall k :: old(|lengths|) <= k < |lengths| ==> lengths[k] == 0
      ensures numTypes == old(numTypes) && numBlocks == old(numBlocks)
      ensures types == old(types) && typesAllocSize == old(typesAllocSize)
    {
      if |lengths| < n {
        lengths := lengths + seq(n - |lengths|, _ => 0);
        lengthsAllocSize := n;
      }
    }
  }
}
