/** The ordering of candidate merge pairs and the entropy change of
    merging two clusters, from cluster.go. Floating-point costs are reals;
    FastLog2 is a parameter, since its numerics are not part of this model. */
module Cluster {
  import opened Common

  /** A candidate merge of histograms `idx1` and `idx2`. */
  datatype HistogramPair = HistogramPair(idx1: U32, idx2: U32, costCombo: real, costDiff: real)

  /** The index span `idx2 - idx1` as Go computes it on uint32: wrapping
      below zero. */
  function Span(p: HistogramPair): (r: U32)
    ensures p.idx1 <= p.idx2 ==> r == p.idx2 - p.idx1
    ensures p.idx1 > p.idx2 ==> r == p.idx2 - p.idx1 + 0x1_0000_0000
  {
    (p.idx2 - p.idx1) % 0x1_0000_0000
  }

  /** HistogramPairIsLess: the comparator of the merge-pair heap. A pair
      ranks first when its cost difference is larger; on equal cost
      differences, when its index span is larger. */
  function IsLess(p1: HistogramPair, p2: HistogramPair): bool
  {
    if p1.costDiff != p2.costDiff then p1.costDiff > p2.costDiff
    else Span(p1) > Span(p2)
  }

  /** The ordering is lexicographic: descending cost difference, then descending span. */
  lemma IsLessIsLexicographic(p1: HistogramPair, p2: HistogramPair)
    ensures p1.costDiff > p2.costDiff ==> IsLess(p1, p2)
    ensures p1.costDiff < p2.costDiff ==> !IsLess(p1, p2)
    ensures p1.costDiff == p2.costDiff ==> (IsLess(p1, p2) <==> Span(p1) > Span(p2))
  {
  }

  /** No pair is less than itself. */
  lemma IsLessIrreflexive(p: HistogramPair)
    ensures !IsLess(p, p)
  {
  }

  /** Two pairs are never each less than the other. */
  lemma IsLessAsymmetric(p1: HistogramPair, p2: HistogramPair)
    ensures !(IsLess(p1, p2) && IsLess(p2, p1))
  {
  }

  lemma IsLessTransitive(p1: HistogramPair, p2: HistogramPair, p3: HistogramPair)
    requires IsLess(p1, p2) && IsLess(p2, p3)
    ensures IsLess(p1, p3)
  {
  }

  /** Neither pair less than the other is transitive as well: the ordering
      is a strict weak order, so a heap or sort built on it is well defined.
      It is not total: pairs with equal cost differences and spans are
      equivalent. */
  lemma IncomparableTransitive(p1: HistogramPair, p2: HistogramPair, p3: HistogramPair)
    requires !IsLess(p1, p2) && !IsLess(p2, p1)
    requires !IsLess(p2, p3) && !IsLess(p3, p2)
    ensures !IsLess(p1, p3) && !IsLess(p3, p1)
  {
  }

  /** Two pairs are equivalent exactly when they agree on cost difference and span. */
  lemma IncomparableIff(p1: HistogramPair, p2: HistogramPair)
    ensures (!IsLess(p1, p2) && !IsLess(p2, p1)) <==> (p1.costDiff == p2.costDiff && Span(p1) == Span(p2))
  {
  }

  /** The combined cost never takes part in the ordering. */
  lemma IsLessIgnoresCostCombo(p1: HistogramPair, p2: HistogramPair, c1: real, c2: real)
    ensures IsLess(p1.(costCombo := c1), p2.(costCombo := c2)) == IsLess(p1, p2)
  {
  }

  /** A pair whose second index lies below its first has a span of at
      least 2^31 + 1 when both indices are below 2^31, and so ranks before
      every pair of the same cost difference with ordered indices. */
  lemma WrappedSpanRanksFirst(p1: HistogramPair, p2: HistogramPair)
    requires p1.costDiff == p2.costDiff
    requires p1.idx2 < p1.idx1 < 0x8000_0000 && p2.idx1 <= p2.idx2 < 0x8000_0000
    ensures IsLess(p1, p2)
  {
  }

  /** ClusterCostDiff: the entropy change of merging clusters of `sizeA`
      and `sizeB` symbols, with the size of the merged cluster their sum. */
  function ClusterCostDiff(log2: nat -> real, sizeA: nat, sizeB: nat): real
  {
    var sizeC := sizeA + sizeB;
    (sizeA as real) * log2(sizeA) + (sizeB as real) * log2(sizeB) - (sizeC as real) * log2(sizeC)
  }

  /** The merge cost does not depend on the order of the two clusters. */
  lemma ClusterCostDiffSymmetric(log2: nat -> real, sizeA: nat, sizeB: nat)
    ensures ClusterCostDiff(log2, sizeA, sizeB) == ClusterCostDiff(log2, sizeB, sizeA)
  {
  }

  /** Merging with an empty cluster costs nothing. */
  lemma ClusterCostDiffEmpty(log2: nat -> real, size: nat)
    ensures ClusterCostDiff(log2, size, 0) == 0.0
  {
  }

  /** With a nondecreasing logarithm, merging never increases the
      estimate: the merged cluster costs at least as much as the parts. */
  lemma ClusterCostDiffNonPositive(log2: nat -> real, sizeA: nat, sizeB: nat)
    requires forall x: nat, y: nat :: x <= y ==> log2(x) <= log2(y)
    ensures ClusterCostDiff(log2, sizeA, sizeB) <= 0.0
  {
    var sizeC := sizeA + sizeB;
    MulMono(sizeA as real, log2(sizeA), log2(sizeC));
    MulMono(sizeB as real, log2(sizeB), log2(sizeC));
  }

  lemma MulMono(k: real, x: real, y: real)
    requires k >= 0.0 && x <= y
    ensures k * x <= k * y
  {
    assert k * y - k * x == k * (y - x);
  }
}
