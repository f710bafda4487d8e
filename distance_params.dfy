/** The choice of distance parameters for a metablock, from metablock.go:
    the parameters a postfix-bit count and a number of direct distance
    codes determine, the cost of coding the metablock's distances with
    candidate parameters, the search over candidates, and the rewrite of
    the commands' distance prefixes once parameters are chosen.

    Restoring a command's distance and prefix-encoding a distance are
    codec primitives outside this model; they are given as the function
    fields of a `DistanceCodec`. The population cost of a histogram is a
    floating-point estimate, given as a parameter on reals. */
module DistanceSearch {
  import opened Common
  import BlockSplitter

  /** Largest postfix-bit count (RFC 7932, section 4). */
  const MaxNpostfix: nat := 3
  /** Extra-bit widths of the standard and the large-window distance codes. */
  const MaxDistanceBits: nat := 24
  const LargeMaxDistanceBits: nat := 62
  /** Largest distance a large-window stream may code. */
  const MaxAllowedDistance: nat := 0x7FF_FFFC
  /** The sixteen distance codes that refer to the last distances. */
  const NumDistanceShortCodes: nat := 16
  /** Number of values of the direct-code multiplier tried per postfix-bit count. */
  const NumDirectMsb: nat := 16

  /** BrotliDistanceParams. */
  datatype DistanceParams = DistanceParams(
    postfixBits: U32,
    numDirectCodes: U32,
    alphabetSize: U32,
    maxDistance: U32)

  /** The codec primitives: CommandRestoreDistanceCode (the distance a
      command codes under the given parameters) and PrefixEncodeCopyDistance
      (prefix and extra bits of a distance for a direct-code count and a
      postfix-bit count). */
  datatype DistanceCodec = DistanceCodec(
    restore: (Command, DistanceParams) -> U32,
    encode: (U32, U32, U32) -> (U16, U32))

  /** Size of the distance alphabet: the short codes, the direct codes, and
      two codes per extra-bit width and postfix value (RFC 7932, section 4,
      where `maxnbits` is 24). */
  function DistanceAlphabetSize(npostfix: nat, ndirect: nat, maxnbits: nat): nat
  {
    NumDistanceShortCodes + ndirect + maxnbits * Pow2(npostfix + 1)
  }

  /** `1 << s` on uint32: zero once the shift count reaches 32. */
  function Bit32(s: nat): (r: U32)
    ensures s < 32 ==> r == Pow2(s)
  {
    if s < 32 then
      assert Pow2(s) < 0x1_0000_0000 by { Pow2Below(s, 32); BlockSplitter.Pow2Is32(); }
      Wrap32(Pow2(s))
    else 0
  }

  lemma {:induction false} Pow2Below(s: nat, t: nat)
    requires s < t
    ensures Pow2(s) < Pow2(t)
  {
    if s + 1 < t {
      Pow2Below(s, t - 1);
    }
  }

  /** The large-window table of direct-code counts below which the largest
      distance is cut back. */
  function LargeWindowBound(npostfix: nat): (r: nat)
    requires npostfix <= MaxNpostfix
    ensures r + Pow2(npostfix) <= 36
  {
    [0, 4, 12, 28][npostfix]
  }

  /** BrotliInitDistanceParams: the distance parameters for `npostfix`
      postfix bits and `ndirect` direct codes. The largest distance is
      computed on uint32, wrapping. The large-window table is indexed by
      `npostfix`, so a large window needs `npostfix <= 3`. */
  function InitDistanceParams(largeWindow: bool, npostfix: U32, ndirect: U32): (r: DistanceParams)
    requires largeWindow ==> npostfix <= MaxNpostfix
    ensures r.postfixBits == npostfix && r.numDirectCodes == ndirect
  {
    var standardMax := (ndirect + Bit32(MaxDistanceBits + npostfix + 2) - Bit32(npostfix + 2)) % 0x1_0000_0000;
    if !largeWindow then
      DistanceParams(npostfix, ndirect, Wrap32(DistanceAlphabetSize(npostfix, ndirect, MaxDistanceBits)), standardMax)
    else
      var bound := LargeWindowBound(npostfix);
      var maxDistance :=
        if ndirect < bound then MaxAllowedDistance - (bound - ndirect)
        else if ndirect >= bound + Pow2(npostfix) then Wrap32(3 * Pow2(29) - 4 + (ndirect - bound))
        else MaxAllowedDistance;
      DistanceParams(npostfix, ndirect, Wrap32(DistanceAlphabetSize(npostfix, ndirect, LargeMaxDistanceBits)), maxDistance)
  }

  lemma Pow2Values()
    ensures Pow2(0) == 1 && Pow2(1) == 2 && Pow2(2) == 4 && Pow2(3) == 8 && Pow2(4) == 16 && Pow2(5) == 32
    ensures Pow2(26) == 0x400_0000 && Pow2(27) == 0x800_0000 && Pow2(28) == 0x1000_0000 && Pow2(29) == 0x2000_0000
  {
    BlockSplitter.Pow2Add(13, 13);
    BlockSplitter.Pow2Add(26, 1);
    BlockSplitter.Pow2Add(26, 2);
    BlockSplitter.Pow2Add(26, 3);
  }

  /** With a standard window and parameters in the format's range, nothing
      wraps: the largest distance is what the 24-bit extra fields reach
      above the direct codes, and the alphabet has 16 short codes, the
      direct codes and 48 codes per postfix value. */
  lemma StandardParams(npostfix: U32, ndirect: U32)
    requires npostfix <= MaxNpostfix && ndirect <= 120
    ensures InitDistanceParams(false, npostfix, ndirect).maxDistance
            == ndirect + Pow2(MaxDistanceBits + npostfix + 2) - Pow2(npostfix + 2)
    ensures InitDistanceParams(false, npostfix, ndirect).alphabetSize
            == NumDistanceShortCodes + ndirect + 48 * Pow2(npostfix)
  {
    SmallPostfixPowers(npostfix);
    var standardMax := ndirect + Pow2(MaxDistanceBits + npostfix + 2) - Pow2(npostfix + 2);
    assert Bit32(MaxDistanceBits + npostfix + 2) == Pow2(MaxDistanceBits + npostfix + 2);
    assert Bit32(npostfix + 2) == Pow2(npostfix + 2);
    assert standardMax % 0x1_0000_0000 == standardMax;
  }

  lemma SmallPostfixPowers(npostfix: nat)
    requires npostfix <= MaxNpostfix
    ensures Pow2(npostfix + 2) < Pow2(MaxDistanceBits + npostfix + 2) <= 0x2000_0000
    ensures Pow2(npostfix) <= 8 && Pow2(npostfix + 1) == 2 * Pow2(npostfix)
  {
    var high := MaxDistanceBits + npostfix + 2;
    Pow2Below(npostfix + 2, high);
    if high < 29 {
      Pow2Below(high, 29);
    }
    if npostfix < 3 {
      Pow2Below(npostfix, 3);
    }
    Pow2Values();
  }

  /** With a large window and a direct-code count below the table bound
      plus one postfix step, the largest distance never exceeds the largest
      allowed one, and reaches it exactly when the count is at least the
      bound. */
  lemma LargeWindowCap(npostfix: U32, ndirect: U32)
    requires npostfix <= MaxNpostfix && ndirect < LargeWindowBound(npostfix) + Pow2(npostfix)
    ensures InitDistanceParams(true, npostfix, ndirect).maxDistance <= MaxAllowedDistance
    ensures InitDistanceParams(true, npostfix, ndirect).maxDistance == MaxAllowedDistance
            <==> ndirect >= LargeWindowBound(npostfix)
  {
  }

  /** With a large window and a direct-code count at least the table bound
      plus one postfix step, the largest distance is `3 << 29` less 4 plus
      the codes above the bound; for the format's direct-code counts this
      does not wrap and lies above the largest allowed distance. */
  lemma LargeWindowHigh(npostfix: U32, ndirect: U32)
    requires npostfix <= MaxNpostfix && LargeWindowBound(npostfix) + Pow2(npostfix) <= ndirect <= 120
    ensures InitDistanceParams(true, npostfix, ndirect).maxDistance
            == 3 * 0x2000_0000 - 4 + (ndirect - LargeWindowBound(npostfix))
    ensures MaxAllowedDistance < InitDistanceParams(true, npostfix, ndirect).maxDistance < 0x1_0000_0000
  {
    Pow2Values();
  }

  /** The two parameter sets code distances the same way. */
  predicate SameCoding(a: DistanceParams, b: DistanceParams) {
    a.postfixBits == b.postfixBits && a.numDirectCodes == b.numDirectCodes
  }

  /** The distance prefix a command carrying a distance gets under `next`:
      its own when the coding does not change, else the prefix of its
      distance restored under `orig` and encoded under `next`. */
  function NewPrefix(cmd: Command, orig: DistanceParams, next: DistanceParams, codec: DistanceCodec): U16
  {
    if SameCoding(orig, next) then cmd.distPrefix
    else codec.encode(codec.restore(cmd, orig), next.numDirectCodes, next.postfixBits).0
  }

  /** A command's distance can be coded under `next`. */
  predicate Fits(cmd: Command, orig: DistanceParams, next: DistanceParams, codec: DistanceCodec) {
    !HasDistance(cmd) || SameCoding(orig, next) || codec.restore(cmd, orig) <= next.maxDistance
  }

  /** Every command's distance can be coded under `next`. */
  predicate Feasible(cmds: seq<Command>, orig: DistanceParams, next: DistanceParams, codec: DistanceCodec) {
    forall k :: 0 <= k < |cmds| ==> Fits(cmds[k], orig, next, codec)
  }

  /** The histogram of distance codes under `next`: one code per command
      that carries a distance. */
  function CostHistogram(cmds: seq<Command>, orig: DistanceParams, next: DistanceParams, codec: DistanceCodec): multiset<U16>
  {
    if cmds == [] then multiset{}
    else
      var n := |cmds| - 1;
      CostHistogram(cmds[..n], orig, next, codec)
      + if HasDistance(cmds[n]) then multiset{DistanceCode(NewPrefix(cmds[n], orig, next, codec)) as U16} else multiset{}
  }

  /** The total number of extra bits of the distances under `next`. */
  function ExtraBitsTotal(cmds: seq<Command>, orig: DistanceParams, next: DistanceParams, codec: DistanceCodec): nat
  {
    if cmds == [] then 0
    else
      var n := |cmds| - 1;
      ExtraBitsTotal(cmds[..n], orig, next, codec)
      + if HasDistance(cmds[n]) then DistanceExtraBits(NewPrefix(cmds[n], orig, next, codec)) else 0
  }

  /** The cost estimate of coding the distances under `next`. */
  function DistanceCost(cmds: seq<Command>, orig: DistanceParams, next: DistanceParams, codec: DistanceCodec,
                        populationCost: multiset<U16> -> real): real
  {
    populationCost(CostHistogram(cmds, orig, next, codec)) + ExtraBitsTotal(cmds, orig, next, codec) as real
  }

  /** ComputeDistanceCost: no cost when some distance is beyond the largest
      distance `next` can code; otherwise the population cost of the
      histogram of distance codes plus the extra bits. */
  method ComputeDistanceCost(cmds: seq<Command>, numCommands: nat, orig: DistanceParams, next: DistanceParams,
                             codec: DistanceCodec, populationCost: multiset<U16> -> real)
    returns (cost: Option<real>)
    requires numCommands <= |cmds|
    ensures cost.Some? <==> Feasible(cmds[..numCommands], orig, next, codec)
    ensures cost.Some? ==> cost.value == DistanceCost(cmds[..numCommands], orig, next, codec, populationCost)
  {
    var equalParams := SameCoding(orig, next);
    var histo: multiset<U16> := multiset{};
    var extraBits: nat := 0;
    var i := 0;
    while i < numCommands
      invariant i <= numCommands
      invariant Feasible(cmds[..i], orig, next, codec)
      invariant histo == CostHistogram(cmds[..i], orig, next, codec)
      invariant extraBits == ExtraBitsTotal(cmds[..i], orig, next, codec)
    {
      var cmd := cmds[i];
      CostPrefixStep(cmds, i, orig, next, codec);
      if HasDistance(cmd) {
        var distPrefix: U16;
        if equalParams {
          distPrefix := cmd.distPrefix;
        } else {
          var distance := codec.restore(cmd, orig);
          if distance > next.maxDistance {
            assert !Feasible(cmds[..numCommands], orig, next, codec) by {
              assert cmds[..numCommands][i] == cmd;
            }
            return None;
          }
          distPrefix := codec.encode(distance, next.numDirectCodes, next.postfixBits).0;
        }
        histo := histo + multiset{DistanceCode(distPrefix) as U16};
        extraBits := extraBits + DistanceExtraBits(distPrefix);
      }
      i := i + 1;
    }
    assert cmds[..numCommands][..i] == cmds[..numCommands];
    cost := Some(populationCost(histo) + extraBits as real);
  }

  /** The cost terms of the first `i + 1` commands extend those of the first `i`. */
  lemma CostPrefixStep(cmds: seq<Command>, i: nat, orig: DistanceParams, next: DistanceParams, codec: DistanceCodec)
    requires i < |cmds|
    ensures Feasible(cmds[..i + 1], orig, next, codec) == (Feasible(cmds[..i], orig, next, codec) && Fits(cmds[i], orig, next, codec))
    ensures CostHistogram(cmds[..i + 1], orig, next, codec) == CostHistogram(cmds[..i], orig, next, codec)
              + if HasDistance(cmds[i]) then multiset{DistanceCode(NewPrefix(cmds[i], orig, next, codec)) as U16} else multiset{}
    ensures ExtraBitsTotal(cmds[..i + 1], orig, next, codec) == ExtraBitsTotal(cmds[..i], orig, next, codec)
              + if HasDistance(cmds[i]) then DistanceExtraBits(NewPrefix(cmds[i], orig, next, codec)) else 0
  {
    assert cmds[..i + 1][..i] == cmds[..i];
    assert forall k :: 0 <= k < i ==> cmds[..i + 1][k] == cmds[..i][k];
  }

  /** A command after its distance prefix and extra bits are recomputed for `next`. */
  function Recoded(cmd: Command, orig: DistanceParams, next: DistanceParams, codec: DistanceCodec): (r: Command)
    ensures r.insertLen == cmd.insertLen && r.copyLen == cmd.copyLen && r.cmdPrefix == cmd.cmdPrefix
    ensures HasDistance(cmd) ==> r.distPrefix == NewPrefix(cmd, orig, next, codec)
    ensures HasDistance(cmd) && !SameCoding(orig, next) ==>
              r.distExtra == codec.encode(codec.restore(cmd, orig), next.numDirectCodes, next.postfixBits).1
    ensures !HasDistance(cmd) || SameCoding(orig, next) ==> r == cmd
  {
    if SameCoding(orig, next) || !HasDistance(cmd) then cmd
    else
      var e := codec.encode(codec.restore(cmd, orig), next.numDirectCodes, next.postfixBits);
      cmd.(distPrefix := e.0, distExtra := e.1)
  }

  function RecodeAll(cmds: seq<Command>, orig: DistanceParams, next: DistanceParams, codec: DistanceCodec): (r: seq<Command>)
    ensures |r| == |cmds|
    ensures forall k :: 0 <= k < |cmds| ==> r[k] == Recoded(cmds[k], orig, next, codec)
  {
    seq(|cmds|, k requires 0 <= k < |cmds| => Recoded(cmds[k], orig, next, codec))
  }

  /** RecomputeDistancePrefixes: rewrites in place the distance prefix and
      extra bits of every command that carries a distance, unless the two
      parameter sets code distances the same way. */
  method RecomputeDistancePrefixes(cmds: array<Command>, numCommands: nat, orig: DistanceParams, next: DistanceParams,
                                   codec: DistanceCodec)
    requires numCommands <= cmds.Length
    modifies cmds
    ensures cmds[..numCommands] == RecodeAll(old(cmds[..numCommands]), orig, next, codec)
    ensures cmds[numCommands..] == old(cmds[numCommands..])
  {
    if SameCoding(orig, next) {
      return;
    }
    var i := 0;
    while i < numCommands
      invariant i <= numCommands
      invariant forall k :: 0 <= k < i ==> cmds[k] == Recoded(old(cmds[k]), orig, next, codec)
      invariant forall k :: i <= k < cmds.Length ==> cmds[k] == old(cmds[k])
    {
      var cmd := cmds[i];
      if HasDistance(cmd) {
        var e := codec.encode(codec.restore(cmd, orig), next.numDirectCodes, next.postfixBits);
        cmds[i] := cmd.(distPrefix := e.0, distExtra := e.1);
      }
      i := i + 1;
    }
  }

  /** The histogram priced by ComputeDistanceCost is the histogram of the
      distance codes the commands carry once RecomputeDistancePrefixes has
      rewritten them for the same parameters. */
  lemma {:induction false} CostHistogramIsRecodedCodes(cmds: seq<Command>, orig: DistanceParams, next: DistanceParams,
                                                      codec: DistanceCodec)
    ensures CostHistogram(cmds, orig, next, codec) == multiset(BlockSplitter.DistanceCodes(RecodeAll(cmds, orig, next, codec)))
  {
    if cmds != [] {
      var n := |cmds| - 1;
      var recoded := RecodeAll(cmds, orig, next, codec);
      assert recoded[..n] == RecodeAll(cmds[..n], orig, next, codec);
      CostHistogramIsRecodedCodes(cmds[..n], orig, next, codec);
    }
  }

  /** One histogram entry per command that carries a distance. */
  lemma {:induction false} CostHistogramSize(cmds: seq<Command>, orig: DistanceParams, next: DistanceParams,
                                             codec: DistanceCodec)
    ensures |CostHistogram(cmds, orig, next, codec)| == BlockSplitter.CountDistances(cmds)
  {
    if cmds != [] {
      CostHistogramSize(cmds[..|cmds| - 1], orig, next, codec);
    }
  }

  /** Under the parameters already in use, the histogram is that of the
      commands' own distance codes, and every distance fits. */
  lemma {:induction false} CostHistogramUnchanged(cmds: seq<Command>, orig: DistanceParams, codec: DistanceCodec)
    ensures Feasible(cmds, orig, orig, codec)
    ensures CostHistogram(cmds, orig, orig, codec) == multiset(BlockSplitter.DistanceCodes(cmds))
  {
    if cmds != [] {
      CostHistogramUnchanged(cmds[..|cmds| - 1], orig, codec);
    }
  }

  /** Parameters that code distances the same way as `orig` price the
      commands exactly as `orig` itself does, and every distance fits. */
  lemma {:induction false} SameCodingCost(cmds: seq<Command>, orig: DistanceParams, next: DistanceParams,
                                          codec: DistanceCodec)
    requires SameCoding(orig, next)
    ensures Feasible(cmds, orig, next, codec)
    ensures CostHistogram(cmds, orig, next, codec) == CostHistogram(cmds, orig, orig, codec)
    ensures ExtraBitsTotal(cmds, orig, next, codec) == ExtraBitsTotal(cmds, orig, orig, codec)
  {
    if cmds != [] {
      SameCodingCost(cmds[..|cmds| - 1], orig, next, codec);
    }
  }

  /** A parameter set the search tries: at most 3 postfix bits and a
      direct-code count that is a multiple of `1 << npostfix` below 16 times it. */
  predicate IsCandidate(largeWindow: bool, d: DistanceParams) {
    d.postfixBits <= MaxNpostfix
    && d.numDirectCodes % Pow2(d.postfixBits) == 0
    && d.numDirectCodes / Pow2(d.postfixBits) < NumDirectMsb
    && d == InitDistanceParams(largeWindow, d.postfixBits, d.numDirectCodes)
  }

  /** `msb << npostfix` for the search's small operands. */
  method Candidate(largeWindow: bool, npostfix: U32, msb: nat) returns (d: DistanceParams)
    requires npostfix <= MaxNpostfix && msb < NumDirectMsb
    ensures IsCandidate(largeWindow, d) && d.postfixBits == npostfix && d.numDirectCodes == msb * Pow2(npostfix)
  {
    Pow2Values();
    assert Pow2(npostfix) <= 8;
    var ndirect := msb * Pow2(npostfix);
    BlockSplitter.DivModUnique(ndirect, Pow2(npostfix), msb, 0);
    d := InitDistanceParams(largeWindow, npostfix, ndirect);
  }

  /** The search of BrotliBuildMetaBlock for distance parameters: for each
      postfix-bit count, direct-code counts are tried in increasing order
      while they are feasible and no costlier than the best so far; the
      next postfix-bit count resumes from about half the last accepted
      multiplier. The original parameters are priced last unless they were
      among the candidates, and win when strictly cheaper. The result can
      code every distance of the metablock. */
  method SearchDistanceParams(cmds: seq<Command>, numCommands: nat, largeWindow: bool, orig: DistanceParams,
                              codec: DistanceCodec, populationCost: multiset<U16> -> real)
    returns (chosen: DistanceParams)
    requires numCommands <= |cmds|
    ensures Feasible(cmds[..numCommands], orig, chosen, codec)
    ensures chosen == orig || IsCandidate(largeWindow, chosen)
    ensures DistanceCost(cmds[..numCommands], orig, chosen, codec, populationCost)
              <= DistanceCost(cmds[..numCommands], orig, orig, codec, populationCost)
  {
    var npostfix: U32 := 0;
    var ndirectMsb: nat := 0;
    var checkOrig := true;
    var bestDistCost: real := 1e99;
    chosen := orig;
    CostHistogramUnchanged(cmds[..numCommands], orig, codec);
    ghost var origCost := DistanceCost(cmds[..numCommands], orig, orig, codec, populationCost);
    ghost var accepted := false;
    while npostfix <= MaxNpostfix
      invariant npostfix <= MaxNpostfix + 1 && ndirectMsb < NumDirectMsb
      invariant Feasible(cmds[..numCommands], orig, chosen, codec)
      invariant chosen == orig || IsCandidate(largeWindow, chosen)
      invariant accepted ==> bestDistCost == DistanceCost(cmds[..numCommands], orig, chosen, codec, populationCost)
      invariant !accepted ==> chosen == orig
      invariant !checkOrig ==> bestDistCost <= origCost
    {
      while ndirectMsb < NumDirectMsb
        invariant ndirectMsb <= NumDirectMsb
        invariant Feasible(cmds[..numCommands], orig, chosen, codec)
        invariant chosen == orig || IsCandidate(largeWindow, chosen)
        invariant accepted ==> bestDistCost == DistanceCost(cmds[..numCommands], orig, chosen, codec, populationCost)
        invariant !accepted ==> chosen == orig
        invariant !checkOrig ==> bestDistCost <= origCost
      {
        var next := Candidate(largeWindow, npostfix, ndirectMsb);
        if npostfix == orig.postfixBits && next.numDirectCodes == orig.numDirectCodes {
          checkOrig := false;
          SameCodingCost(cmds[..numCommands], orig, next, codec);
        }
        var distCost := ComputeDistanceCost(cmds, numCommands, orig, next, codec, populationCost);
        if distCost.None? || distCost.value > bestDistCost {
          break;
        }
        bestDistCost := distCost.value;
        chosen := next;
        accepted := true;
        ndirectMsb := ndirectMsb + 1;
      }
      if ndirectMsb > 0 {
        ndirectMsb := ndirectMsb - 1;
      }
      ndirectMsb := ndirectMsb / 2;
      npostfix := npostfix + 1;
    }
    if checkOrig {
      var distCost := ComputeDistanceCost(cmds, numCommands, orig, orig, codec, populationCost);
      if distCost.value < bestDistCost {
        chosen := orig;
      }
    }
  }
}
