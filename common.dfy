/** Shared vocabulary of the block-segmentation stage: fixed-width integer
    types, the constants of the Brotli format, the command record produced
    by the match finder, and sums over sequences of counts. */
module Common {

  type Byte = x: int | 0 <= x < 0x100
  type U16 = x: int | 0 <= x < 0x1_0000
  type U32 = x: int | 0 <= x < 0x1_0000_0000

  /** A value that may be absent. */
  datatype Option<T> = None | Some(value: T)

  /** Truncation of an unbounded integer to 32 bits (Go's uint32 wrap-around). */
  function Wrap32(x: nat): (r: U32)
    ensures x < 0x1_0000_0000 ==> r == x
  {
    x % 0x1_0000_0000
  }

  /** 2 to the power k; `mask == Pow2(k) - 1` is how a power-of-two mask is given. */
  function Pow2(k: nat): (r: nat)
    ensures r >= 1
  {
    if k == 0 then 1 else 2 * Pow2(k - 1)
  }

  /** Number of literal, command and distance contexts and block types (RFC 7932, sections 6 and 7.3). */
  const MaxNumberOfBlockTypes: nat := 256
  const MaxStaticContexts: nat := 13
  const LiteralContextBits: nat := 6
  const DistanceContextBits: nat := 2
  const NumLiteralSymbols: nat := 256

  /** One copy/insert command of the token stream. `copyLen` is the value the
      command's copy-length accessor returns; `cmdPrefix` is the joint
      insert-and-copy code (>= 128 means the command carries its own distance);
      `distPrefix` holds the distance code in its low 10 bits and the number of
      extra bits above them. */
  datatype Command = Command(
    insertLen: U32,
    copyLen: U32,
    cmdPrefix: U16,
    distPrefix: U16,
    distExtra: U32)

  /** A command whose distance is coded explicitly: a real back-reference. */
  predicate HasDistance(cmd: Command) {
    cmd.copyLen != 0 && cmd.cmdPrefix >= 128
  }

  /** The distance code of a distance prefix with its extra-bit count masked off (`& 0x3FF`). */
  function DistanceCode(prefix: U16): (r: nat)
    ensures r < 1024
  {
    prefix % 1024
  }

  /** The extra-bit count stored above the distance code (`>> 10`). */
  function DistanceExtraBits(prefix: U16): (r: nat)
    ensures r < 64
  {
    prefix / 1024
  }

  lemma {:induction false} DistancePrefixSplits(prefix: U16)
    ensures prefix == DistanceExtraBits(prefix) * 1024 + DistanceCode(prefix)
  {
  }

  /** Sum of a sequence of counts, taken from the back so that appending is one step. */
  function Sum(s: seq<nat>): nat
  {
    if s == [] then 0 else Sum(s[..|s| - 1]) + s[|s| - 1]
  }

  lemma {:induction false} SumAppend(s: seq<nat>, x: nat)
    ensures Sum(s + [x]) == Sum(s) + x
  {
    assert (s + [x])[..|s + [x]| - 1] == s;
  }

  lemma {:induction false} SumLowerBound(s: seq<nat>, lo: nat)
    requires forall k :: 0 <= k < |s| ==> s[k] >= lo
    ensures Sum(s) >= |s| * lo
  {
    if s != [] {
      SumLowerBound(s[..|s| - 1], lo);
    }
  }

  /** Replacing one element changes the sum by the difference. */
  lemma {:induction false} SumUpdate(s: seq<nat>, k: nat, x: nat)
    requires k < |s|
    ensures Sum(s[k := x]) + s[k] == Sum(s) + x
  {
    var n := |s|;
    if k == n - 1 {
      assert s[k := x][..n - 1] == s[..n - 1];
    } else {
      assert s[k := x][..n - 1] == s[..n - 1][k := x];
      SumUpdate(s[..n - 1], k, x);
    }
  }

  /** Writing a new last element just past a prefix adds it to the prefix's sum. */
  lemma SumExtendPrefix(s: seq<nat>, n: nat, x: nat)
    requires n < |s|
    ensures Sum(s[n := x][..n + 1]) == Sum(s[..n]) + x
  {
    assert s[n := x][..n + 1] == s[..n] + [x];
    SumAppend(s[..n], x);
  }

  /** Growing the last element of a prefix grows the prefix's sum alike. */
  lemma SumGrowLast(s: seq<nat>, n: nat, x: nat)
    requires 0 < n <= |s|
    ensures Sum(s[n - 1 := s[n - 1] + x][..n]) == Sum(s[..n]) + x
  {
    assert s[n - 1 := s[n - 1] + x][..n] == s[..n][n - 1 := s[n - 1] + x];
    SumUpdate(s[..n], n - 1, s[n - 1] + x);
  }

  /** Element-wise sum of two histograms (adding one histogram into another). */
  function AddCounts(a: seq<nat>, b: seq<nat>): (r: seq<nat>)
    requires |a| == |b|
    ensures |r| == |a|
    ensures forall k {:trigger r[k]} :: 0 <= k < |r| ==> r[k] == a[k] + b[k]
  {
    seq(|a|, k requires 0 <= k < |a| => a[k] + b[k])
  }

  /** A cleared histogram of n symbols. */
  function ZeroCounts(n: nat): (r: seq<nat>)
    ensures |r| == n
    ensures forall k :: 0 <= k < n ==> r[k] == 0
  {
    seq(n, _ => 0)
  }

  lemma {:induction false} SumAddCounts(a: seq<nat>, b: seq<nat>)
    requires |a| == |b|
    ensures Sum(AddCounts(a, b)) == Sum(a) + Sum(b)
  {
    if a != [] {
      var n := |a|;
      assert AddCounts(a, b)[..n - 1] == AddCounts(a[..n - 1], b[..n - 1]);
      SumAddCounts(a[..n - 1], b[..n - 1]);
    }
  }

  lemma {:induction false} SumZeroCounts(n: nat)
    ensures Sum(ZeroCounts(n)) == 0
  {
    if n > 0 {
      assert ZeroCounts(n)[..n - 1] == ZeroCounts(n - 1);
      SumZeroCounts(n - 1);
    }
  }
}
