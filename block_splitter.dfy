/** The array preparation of block_splitter.go: the literal count, the copy
    of the literals out of the ring buffer, the arrays of command and
    distance prefixes handed to the block splitters, and the
    pseudo-random generator of the splitters. The splitters themselves
    (SplitByteVector*) are not part of this model. */
module BlockSplitter {
  import opened Common

  // Tuning constants handed to the splitters of literals, commands and distances.
  const MaxLiteralHistograms: nat := 100
  const MaxCommandHistograms: nat := 50
  const LiteralBlockSwitchCost: real := 28.1
  const CommandBlockSwitchCost: real := 13.5
  const DistanceBlockSwitchCost: real := 14.6
  const LiteralStrideLength: nat := 70
  const CommandStrideLength: nat := 40
  const SymbolsPerLiteralHistogram: nat := 544
  const SymbolsPerCommandHistogram: nat := 530
  const SymbolsPerDistanceHistogram: nat := 544
  const MinLengthForBlockSplitting: nat := 128
  const IterMulForRefining: nat := 2
  const MinItersForRefining: nat := 100

  // ---------------------------------------------------------------------
  // Literal count
  // ---------------------------------------------------------------------

  /** The number of literals of a command sequence: the sum of its insert lengths. */
  function InsertTotal(cmds: seq<Command>): nat
  {
    if cmds == [] then 0 else InsertTotal(cmds[..|cmds| - 1]) + cmds[|cmds| - 1].insertLen
  }

  /** The literal count of a concatenation is the sum of the counts. */
  lemma {:induction false} InsertTotalAppend(a: seq<Command>, b: seq<Command>)
    ensures InsertTotal(a + b) == InsertTotal(a) + InsertTotal(b)
    decreases |b|
  {
    if b != [] {
      var n := |b| - 1;
      assert (a + b)[..|a + b| - 1] == a + b[..n];
      assert (a + b)[|a + b| - 1] == b[n];
      InsertTotalAppend(a, b[..n]);
    } else {
      assert a + b == a;
    }
  }

  /** A prefix of the commands holds at most as many literals as the whole. */
  lemma InsertTotalPrefix(cmds: seq<Command>, i: nat)
    requires i <= |cmds|
    ensures InsertTotal(cmds[..i]) <= InsertTotal(cmds)
  {
    assert cmds == cmds[..i] + cmds[i..];
    InsertTotalAppend(cmds[..i], cmds[i..]);
  }

  /** CountLiterals: the sum of the insert lengths of the first `numCommands` commands. */
  method CountLiterals(cmds: seq<Command>, numCommands: nat) returns (total: nat)
    requires numCommands <= |cmds|
    ensures total == InsertTotal(cmds[..numCommands])
  {
    total := 0;
    var i := 0;
    while i < numCommands
      invariant i <= numCommands
      invariant total == InsertTotal(cmds[..i])
    {
      assert cmds[..i + 1][..i] == cmds[..i];
      total := total + cmds[i].insertLen;
      i := i + 1;
    }
  }

  // ---------------------------------------------------------------------
  // Modular arithmetic of a power-of-two ring
  // ---------------------------------------------------------------------

  lemma {:induction false} Pow2Add(a: nat, b: nat)
    ensures Pow2(a + b) == Pow2(a) * Pow2(b)
    decreases a
  {
    if a > 0 {
      Pow2Add(a - 1, b);
      assert Pow2(a + b) == 2 * Pow2(a - 1 + b);
    }
  }

  /** Euclidean division is unique: a value written as `a * m + b` with
      `0 <= b < m` has quotient `a` and remainder `b`. */
  lemma DivModUnique(x: int, m: int, a: int, b: int)
    requires m > 0 && 0 <= b < m && x == a * m + b
    ensures x % m == b && x / m == a
  {
    var d := x / m - a;
    assert m * d == b - x % m;
  }

  lemma ModAddMultiple(q: nat, r: nat, m: nat)
    requires m > 0
    ensures (q * m + r) % m == r % m
  {
    assert r == (r / m) * m + r % m;
    assert q * m + r == (q + r / m) * m + r % m;
    DivModUnique(q * m + r, m, q + r / m, r % m);
  }

  /** Reducing first by a multiple of m does not change the residue modulo m. */
  lemma ModOfMultipleMod(x: nat, a: nat, b: nat)
    requires a > 0 && b > 0
    ensures (x % (a * b)) % a == x % a
  {
    var q := x / (a * b);
    assert x == q * (a * b) + x % (a * b);
    assert q * (a * b) == (q * b) * a;
    ModAddMultiple(q * b, x % (a * b), a);
  }

  /** The residue of a sum depends only on the residue of its first term. */
  lemma ModAddLeft(x: nat, y: nat, m: nat)
    requires m > 0
    ensures (x % m + y) % m == (x + y) % m
  {
    assert x == (x / m) * m + x % m;
    ModAddMultiple(x / m, x % m + y, m);
  }

  /** Truncating to 32 bits keeps the residue modulo a ring size that is a
      power of two no larger than 2^32. */
  lemma WrapKeepsRing(x: nat, k: nat)
    requires k <= 32
    ensures Wrap32(x) % Pow2(k) == x % Pow2(k)
  {
    Pow2Add(k, 32 - k);
    assert Pow2(32) == 0x1_0000_0000 by { Pow2Is32(); }
    ModOfMultipleMod(x, Pow2(k), Pow2(32 - k));
  }

  lemma Pow2Is32()
    ensures Pow2(32) == 0x1_0000_0000
  {
    Pow2Add(16, 16);
    Pow2Add(8, 8);
    Pow2Add(4, 4);
    Pow2Add(2, 2);
  }

  // ---------------------------------------------------------------------
  // Copy of the literals out of the ring buffer
  // ---------------------------------------------------------------------

  /** The distance the stream position advances over a command sequence:
      its insert lengths and copy lengths. */
  function Advance(cmds: seq<Command>): nat
  {
    if cmds == [] then 0
    else
      var last := cmds[|cmds| - 1];
      Advance(cmds[..|cmds| - 1]) + last.insertLen + last.copyLen
  }

  /** `len` bytes of a ring of `size` bytes, read from stream position `at` on. */
  function Run(data: seq<Byte>, size: nat, at: nat, len: nat): (r: seq<Byte>)
    requires 0 < size <= |data|
    ensures |r| == len
    ensures forall q {:trigger r[q]} :: 0 <= q < len ==> r[q] == data[(at + q) % size]
  {
    seq(len, q requires 0 <= q < len => data[(at + q) % size])
  }

  /** The literals of a command sequence that starts at stream position
      `start`: each command's insert run, read from the ring. */
  function Literals(cmds: seq<Command>, data: seq<Byte>, size: nat, start: nat): (r: seq<Byte>)
    requires 0 < size <= |data|
    ensures |r| == InsertTotal(cmds)
  {
    if cmds == [] then []
    else
      var n := |cmds| - 1;
      Literals(cmds[..n], data, size, start) + Run(data, size, start + Advance(cmds[..n]), cmds[n].insertLen)
  }

  /** Literal `q` of command `i` lies after the literals of the commands
      before it and is the ring byte at its stream position. */
  lemma LiteralAt(cmds: seq<Command>, data: seq<Byte>, size: nat, start: nat, i: nat, q: nat)
    requires 0 < size <= |data| && i < |cmds| && q < cmds[i].insertLen
    ensures InsertTotal(cmds[..i]) + q < InsertTotal(cmds)
    ensures Literals(cmds, data, size, start)[InsertTotal(cmds[..i]) + q]
            == data[(start + Advance(cmds[..i]) + q) % size]
  {
    LiteralsPrefix(cmds, data, size, start, i + 1);
    InsertTotalPrefix(cmds, i + 1);
    var pre := cmds[..i + 1];
    assert pre[..i] == cmds[..i];
  }

  /** The literals of a prefix of the commands are a prefix of the literals. */
  lemma {:induction false} LiteralsPrefix(cmds: seq<Command>, data: seq<Byte>, size: nat, start: nat, i: nat)
    requires 0 < size <= |data| && i <= |cmds|
    ensures |Literals(cmds[..i], data, size, start)| <= |Literals(cmds, data, size, start)|
    ensures Literals(cmds[..i], data, size, start)
            == Literals(cmds, data, size, start)[..|Literals(cmds[..i], data, size, start)|]
    decreases |cmds| - i
  {
    if i < |cmds| {
      LiteralsPrefix(cmds, data, size, start, i + 1);
      assert cmds[..i + 1][..i] == cmds[..i];
    } else {
      assert cmds[..i] == cmds;
    }
  }

  /** Go's built-in `copy` of `n` bytes from `src[from..]` into `dst[at..]`. */
  method CopyBytes(dst: array<Byte>, at: nat, src: seq<Byte>, from: nat, n: nat)
    requires at + n <= dst.Length && from + n <= |src|
    modifies dst
    ensures forall j {:trigger dst[j]} :: 0 <= j < dst.Length ==>
      dst[j] == if at <= j < at + n then src[from + j - at] else old(dst[j])
  {
    var k := 0;
    while k < n
      invariant k <= n
      invariant forall j {:trigger dst[j]} :: 0 <= j < dst.Length ==>
        dst[j] == if at <= j < at + k then src[from + j - at] else old(dst[j])
    {
      dst[at + k] := src[from + k];
      k := k + 1;
    }
  }

  /** The copy of one command's run out of a ring of `mask + 1` bytes from
      ring offset `fromPos` on: the bytes up to the end of the ring, then,
      when the run reaches the end, the rest from the start of the ring.
      Returns the output position, ring offset and remaining run length
      the source's loop body holds at that point. */
  method CopyRun(literals: array<Byte>, pos: nat, data: seq<Byte>, mask: nat, fromPos: nat, insertLen: nat)
    returns (pos2: nat, fromPos2: nat, rest: nat)
    requires mask < |data| && fromPos <= mask && insertLen <= mask + 1
    requires pos + insertLen <= literals.Length
    modifies literals
    ensures pos2 == pos + insertLen
    ensures fromPos2 + rest == fromPos + insertLen || fromPos2 + rest + mask + 1 == fromPos + insertLen
    ensures forall j {:trigger literals[j]} :: 0 <= j < literals.Length ==>
      literals[j] == if pos <= j < pos2 then data[(fromPos + (j - pos)) % (mask + 1)] else old(literals[j])
  {
    pos2, fromPos2, rest := pos, fromPos, insertLen;
    if fromPos2 + rest > mask {
      var headSize := mask + 1 - fromPos2;
      CopyBytes(literals, pos2, data, fromPos2, headSize);
      fromPos2 := 0;
      pos2 := pos2 + headSize;
      rest := rest - headSize;
    }
    ghost var mid := literals[..];
    if rest > 0 {
      CopyBytes(literals, pos2, data, fromPos2, rest);
      pos2 := pos2 + rest;
    }
    forall j | pos <= j < pos + insertLen
      ensures literals[j] == data[(fromPos + (j - pos)) % (mask + 1)]
    {
      var q := fromPos + (j - pos);
      if q <= mask {
        DivModUnique(q, mask + 1, 0, q);
      } else {
        DivModUnique(q, mask + 1, 1, q - (mask + 1));
      }
    }
  }

  /** The stream position after command `i`, as a ring offset. */
  function RingPos(cmds: seq<Command>, i: nat, offset: nat, size: nat): nat
    requires i <= |cmds| && size > 0
  {
    (offset + Advance(cmds[..i])) % size
  }

  /** CopyLiteralsToByteArray: the literals of the first `numCommands`
      commands, read from the ring buffer `data` of `mask + 1` bytes from
      stream position `offset` on, are written to the front of `literals`;
      the rest of `literals` is untouched. The ring size is a power of two
      no larger than 2^32, and no insert run is longer than the ring. */
  method CopyLiteralsToByteArray(cmds: seq<Command>, numCommands: nat, data: seq<Byte>, offset: nat,
                                 mask: nat, ghost k: nat, literals: array<Byte>)
    requires numCommands <= |cmds|
    requires k <= 32 && mask + 1 == Pow2(k) && mask < |data|
    requires forall i :: 0 <= i < numCommands ==> cmds[i].insertLen <= mask + 1
    requires InsertTotal(cmds[..numCommands]) <= literals.Length
    modifies literals
    ensures literals[..InsertTotal(cmds[..numCommands])] == Literals(cmds[..numCommands], data, mask + 1, offset)
    ensures literals[InsertTotal(cmds[..numCommands])..] == old(literals[InsertTotal(cmds[..numCommands])..])
  {
    ghost var total := InsertTotal(cmds[..numCommands]);
    var size := mask + 1;
    var pos := 0;
    var fromPos := offset % size;
    var i := 0;
    while i < numCommands
      invariant i <= numCommands
      invariant pos == InsertTotal(cmds[..i]) <= total
      invariant fromPos == RingPos(cmds, i, offset, size)
      invariant literals[..pos] == Literals(cmds[..i], data, size, offset)
      invariant literals[total..] == old(literals[total..])
    {
      assert cmds[..i + 1][..i] == cmds[..i];
      assert pos + cmds[i].insertLen <= total by {
        assert cmds[..numCommands][..i + 1] == cmds[..i + 1];
        InsertTotalPrefix(cmds[..numCommands], i + 1);
      }
      ghost var before := literals[..];
      ghost var at := fromPos;
      ghost var start := pos;
      var insertLen: nat;
      pos, fromPos, insertLen := CopyRun(literals, pos, data, mask, fromPos, cmds[i].insertLen);
      CopyStep(cmds, i, data, size, offset, at, before, literals[..], start, total);
      var next := Wrap32(Wrap32(fromPos + insertLen) + cmds[i].copyLen) % size;
      assert next == RingPos(cmds, i + 1, offset, size) by {
        NextRingPos(cmds, i, offset, size, k, fromPos + insertLen, at);
      }
      fromPos := next;
      i := i + 1;
    }
    assert cmds[..numCommands][..i] == cmds[..numCommands];
  }

  /** One command's run copied behind the literals of the commands before
      it extends them to the literals of the commands up to it. */
  lemma CopyStep(cmds: seq<Command>, i: nat, data: seq<Byte>, size: nat, offset: nat, at: nat,
                 before: seq<Byte>, after: seq<Byte>, pos: nat, total: nat)
    requires 0 < size <= |data| && i < |cmds|
    requires at == RingPos(cmds, i, offset, size)
    requires pos == InsertTotal(cmds[..i]) && pos + cmds[i].insertLen <= total <= |before| == |after|
    requires before[..pos] == Literals(cmds[..i], data, size, offset)
    requires forall j {:trigger after[j]} :: 0 <= j < |after| ==>
      after[j] == if pos <= j < pos + cmds[i].insertLen then data[(at + (j - pos)) % size] else before[j]
    ensures after[..pos + cmds[i].insertLen] == Literals(cmds[..i + 1], data, size, offset)
    ensures after[total..] == before[total..]
  {
    assert cmds[..i + 1][..i] == cmds[..i];
    var run := Run(data, size, offset + Advance(cmds[..i]), cmds[i].insertLen);
    RunAtRing(data, size, offset + Advance(cmds[..i]), cmds[i].insertLen, at);
    assert after[..pos + cmds[i].insertLen] == before[..pos] + run;
  }

  /** A run read from stream position `stream` is the run read from its ring offset. */
  lemma RunAtRing(data: seq<Byte>, size: nat, stream: nat, len: nat, at: nat)
    requires 0 < size <= |data| && at == stream % size
    ensures forall q {:trigger Run(data, size, stream, len)[q]} :: 0 <= q < len ==>
      Run(data, size, stream, len)[q] == data[(at + q) % size]
  {
    var run := Run(data, size, stream, len);
    forall q | 0 <= q < len
      ensures run[q] == data[(at + q) % size]
    {
      ModAddLeft(stream, q, size);
    }
  }

  /** The ring offset the copy moves to after a command, computed with the
      source's 32-bit additions and mask, is the stream position after it. */
  lemma NextRingPos(cmds: seq<Command>, i: nat, offset: nat, size: nat, k: nat, reached: nat, at: nat)
    requires i < |cmds| && k <= 32 && size == Pow2(k)
    requires at == RingPos(cmds, i, offset, size)
    requires reached == at + cmds[i].insertLen || reached + size == at + cmds[i].insertLen
    ensures Wrap32(Wrap32(reached) + cmds[i].copyLen) % size == RingPos(cmds, i + 1, offset, size)
  {
    var c := cmds[i];
    assert cmds[..i + 1][..i] == cmds[..i];
    var stream := offset + Advance(cmds[..i]);
    assert RingPos(cmds, i + 1, offset, size) == (stream + c.insertLen + c.copyLen) % size;
    WrapKeepsRing(Wrap32(reached) + c.copyLen, k);
    ModAddLeft(Wrap32(reached), c.copyLen, size);
    WrapKeepsRing(reached, k);
    ModAddLeft(reached, c.copyLen, size);
    assert Wrap32(Wrap32(reached) + c.copyLen) % size == (reached + c.copyLen) % size;
    if reached + size == at + c.insertLen {
      ModAddMultiple(1, reached + c.copyLen, size);
    }
    assert (reached + c.copyLen) % size == (at + c.insertLen + c.copyLen) % size;
    ModAddLeft(stream, c.insertLen + c.copyLen, size);
  }

  // ---------------------------------------------------------------------
  // Command and distance prefixes
  // ---------------------------------------------------------------------

  /** The prefix-extraction loop for commands: one joint insert-and-copy
      code per command, in order. */
  method CommandPrefixes(cmds: seq<Command>, numCommands: nat) returns (codes: array<U16>)
    requires numCommands <= |cmds|
    ensures fresh(codes) && codes.Length == numCommands
    ensures forall k :: 0 <= k < numCommands ==> codes[k] == cmds[k].cmdPrefix
  {
    codes := new U16[numCommands];
    var i := 0;
    while i < numCommands
      invariant i <= numCommands
      invariant forall k :: 0 <= k < i ==> codes[k] == cmds[k].cmdPrefix
    {
      codes[i] := cmds[i].cmdPrefix;
      i := i + 1;
    }
  }

  /** The distance codes of the commands that carry a distance, in order. */
  function DistanceCodes(cmds: seq<Command>): (r: seq<U16>)
    ensures |r| <= |cmds|
    ensures forall k :: 0 <= k < |r| ==> r[k] < 1024
  {
    if cmds == [] then []
    else
      var n := |cmds| - 1;
      DistanceCodes(cmds[..n]) + if HasDistance(cmds[n]) then [DistanceCode(cmds[n].distPrefix) as U16] else []
  }

  /** The number of commands that carry a distance. */
  function CountDistances(cmds: seq<Command>): nat
  {
    if cmds == [] then 0
    else CountDistances(cmds[..|cmds| - 1]) + if HasDistance(cmds[|cmds| - 1]) then 1 else 0
  }

  /** There is one distance code per command that carries a distance. */
  lemma {:induction false} DistanceCodesCount(cmds: seq<Command>)
    ensures |DistanceCodes(cmds)| == CountDistances(cmds)
  {
    if cmds != [] {
      DistanceCodesCount(cmds[..|cmds| - 1]);
    }
  }

  /** The distance codes of a prefix of the commands are a prefix of the codes. */
  lemma {:induction false} DistanceCodesPrefix(cmds: seq<Command>, i: nat)
    requires i <= |cmds|
    ensures |DistanceCodes(cmds[..i])| <= |DistanceCodes(cmds)|
    ensures DistanceCodes(cmds[..i]) == DistanceCodes(cmds)[..|DistanceCodes(cmds[..i])|]
    decreases |cmds| - i
  {
    if i < |cmds| {
      DistanceCodesPrefix(cmds, i + 1);
      assert cmds[..i + 1][..i] == cmds[..i];
    } else {
      assert cmds[..i] == cmds;
    }
  }

  /** A command that carries a distance contributes its code right after
      the codes of the commands before it: entry k is the distance code of
      the k-th command that carries a distance. */
  lemma DistanceCodeAt(cmds: seq<Command>, i: nat)
    requires i < |cmds| && HasDistance(cmds[i])
    ensures CountDistances(cmds[..i]) < |DistanceCodes(cmds)|
    ensures DistanceCodes(cmds)[CountDistances(cmds[..i])] == DistanceCode(cmds[i].distPrefix)
  {
    DistanceCodesPrefix(cmds, i + 1);
    assert cmds[..i + 1][..i] == cmds[..i];
    DistanceCodesCount(cmds[..i]);
  }

  /** The prefix-extraction loop for distances: the distance code of each
      command that carries a distance, in order, and their number `j`. */
  method DistancePrefixes(cmds: seq<Command>, numCommands: nat) returns (prefixes: array<U16>, j: nat)
    requires numCommands <= |cmds|
    ensures fresh(prefixes) && prefixes.Length == numCommands
    ensures j == CountDistances(cmds[..numCommands]) <= numCommands
    ensures prefixes[..j] == DistanceCodes(cmds[..numCommands])
  {
    prefixes := new U16[numCommands];
    j := 0;
    var i := 0;
    while i < numCommands
      invariant i <= numCommands && j <= i
      invariant j == CountDistances(cmds[..i])
      invariant prefixes[..j] == DistanceCodes(cmds[..i])
    {
      assert cmds[..i + 1][..i] == cmds[..i];
      DistanceCodesCount(cmds[..i]);
      if cmds[i].copyLen != 0 && cmds[i].cmdPrefix >= 128 {
        prefixes[j] := cmds[i].distPrefix % 1024;
        j := j + 1;
      }
      DistanceCodesCount(cmds[..i + 1]);
      i := i + 1;
    }
    assert cmds[..numCommands][..i] == cmds[..i];
  }

  /** BrotliSplitBlock up to the calls into the three splitters: the array
      of literals, the array of command prefixes, and the array of distance
      prefixes with its length, which are what the splitters receive. */
  method SplitBlock(cmds: seq<Command>, numCommands: nat, data: seq<Byte>, pos: nat, mask: nat, ghost k: nat)
    returns (literals: array<Byte>, codes: array<U16>, distancePrefixes: array<U16>, numDistances: nat)
    requires numCommands <= |cmds|
    requires k <= 32 && mask + 1 == Pow2(k) && mask < |data|
    requires forall i :: 0 <= i < numCommands ==> cmds[i].insertLen <= mask + 1
    ensures literals[..] == Literals(cmds[..numCommands], data, mask + 1, pos)
    ensures codes.Length == numCommands && forall i :: 0 <= i < numCommands ==> codes[i] == cmds[i].cmdPrefix
    ensures numDistances <= distancePrefixes.Length
    ensures distancePrefixes[..numDistances] == DistanceCodes(cmds[..numCommands])
  {
    var literalsCount := CountLiterals(cmds, numCommands);
    literals := new Byte[literalsCount];
    CopyLiteralsToByteArray(cmds, numCommands, data, pos, mask, k, literals);
    assert literals[..] == literals[..literalsCount];
    codes := CommandPrefixes(cmds, numCommands);
    distancePrefixes, numDistances := DistancePrefixes(cmds, numCommands);
  }

  // ---------------------------------------------------------------------
  // MyRand
  // ---------------------------------------------------------------------

  const Pow32: nat := 0x1_0000_0000

  /** The generator's step: the seed times 16807, truncated to 32 bits. */
  function NextSeed(seed: U32): U32
  {
    (seed * 16807) % Pow32
  }

  /** The inverse step: 1278498327 is the inverse of 16807 modulo 2^32
      (16807 * 1278498327 == 5003 * 2^32 + 1). */
  function PrevSeed(seed: U32): U32
  {
    (seed * 1278498327) % Pow32
  }

  /** Multiplying after reducing modulo m gives the same residue. */
  lemma ModMulLeft(x: nat, c: nat, m: nat)
    requires m > 0
    ensures ((x % m) * c) % m == (x * c) % m
  {
    var q, r := x / m, x % m;
    assert x == q * m + r;
    assert x * c == (q * c) * m + r * c;
    ModAddMultiple(q * c, r * c, m);
  }

  /** The step is invertible: no two seeds lead to the same next seed. */
  lemma PrevNextSeed(seed: U32)
    ensures PrevSeed(NextSeed(seed)) == seed
  {
    ModMulLeft(seed * 16807, 1278498327, Pow32);
    assert seed * 16807 * 1278498327 == (seed * 5003) * Pow32 + seed;
    ModAddMultiple(seed * 5003, seed, Pow32);
  }

  /** The step keeps the seed's parity, so an odd seed such as the initial 7 stays odd. */
  lemma NextSeedParity(seed: U32)
    ensures NextSeed(seed) % 2 == seed % 2
  {
    var q := (seed * 16807) / Pow32;
    assert seed * 16807 == q * Pow32 + NextSeed(seed);
    assert seed * 16807 == 2 * (seed * 8403) + seed;
    assert q * Pow32 == 2 * (q * 0x8000_0000);
    ModAddMultiple(seed * 8403, seed, 2);
    ModAddMultiple(q * 0x8000_0000, NextSeed(seed), 2);
  }

  /** A zero seed is the only one the step sends to zero. */
  lemma NextSeedNonZero(seed: U32)
    requires seed != 0
    ensures NextSeed(seed) != 0
  {
    PrevNextSeed(seed);
  }

  /** The generator state the caller owns and MyRand advances through a pointer. */
  class RandState {
    var seed: U32

    constructor (seed: U32)
      ensures this.seed == seed
    {
      this.seed := seed;
    }

    /** MyRand: advances the seed by one step and returns the new seed. */
    method MyRand() returns (r: U32)
      modifies this
      ensures seed == NextSeed(old(seed)) && r == seed
    {
      seed := (seed * 16807) % Pow32;
      r := seed;
    }
  }
}
