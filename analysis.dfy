/**
 * The audio analysis arithmetic both visualizers share: the mono merge of the two
 * analyser channels, the mean square behind the RMS loudness, and the exponential
 * moving average that smooths it. Samples are the bytes an `AnalyserNode` writes into
 * a `Uint8Array`; loudness values are idealised as exact reals.
 */
module Analysis {
  import opened JsNumbers

  // ---------------------------------------------------------------------------
  // Analyser nodes

  /** The FFT sizes an `AnalyserNode` accepts: powers of two from 32 to 32768. */
  predicate ValidFftSize(n: nat)
  {
    32 <= n <= 32768 && PowerOfTwo(n)
  }

  /**
   * One reading of the two analysers for buffers of n samples: frequency and time-domain
   * bytes per channel, and the square roots `Math.sqrt` returns for the two mean squares.
   */
  predicate AnalyserReadings(n: nat, freqL: seq<Byte>, freqR: seq<Byte>, tdL: seq<Byte>, tdR: seq<Byte>, rootL: real, rootR: real)
  {
    && n > 0 && |freqL| == n && |freqR| == n && |tdL| == n && |tdR| == n
    && IsRoot(rootL, MeanSquare(tdL)) && IsRoot(rootR, MeanSquare(tdR))
  }

  /** Every sample of the array is zero, as in a newly allocated `Uint8Array`. */
  predicate Silent(a: array<Byte>)
    reads a
  {
    forall i :: 0 <= i < a.Length ==> a[i] == 0
  }

  /** The analyser filling an existing array (`getByteFrequencyData`, `getByteTimeDomainData`). */
  method CopyInto(s: seq<Byte>, a: array<Byte>)
    requires |s| == a.Length
    modifies a
    ensures a[..] == s
  {
    forall i | 0 <= i < a.Length {
      a[i] := s[i];
    }
  }

  /** The analyser filling a newly allocated `Uint8Array`. */
  method ArrayOf(s: seq<Byte>) returns (a: array<Byte>)
    ensures fresh(a) && a[..] == s
  {
    a := new Byte[|s|](i requires 0 <= i < |s| => s[i]);
  }

  // ---------------------------------------------------------------------------
  // Mono merge

  /** The byte `dataArrayM[i] = (l + r) / 2` stores: a `Uint8Array` store truncates the half-sum. */
  function MonoSample(l: Byte, r: Byte): (m: Byte)
    ensures m == (l as int + r as int) / 2
    ensures (if l <= r then l else r) <= m <= (if l <= r then r else l)
  {
    ToUint8HalfSum(l, r);
    ToUint8((l + r) as real / 2.0)
  }

  /** The mono channel of two equally long channels, sample by sample. */
  function MonoMerge(left: seq<Byte>, right: seq<Byte>): (mono: seq<Byte>)
    requires |left| == |right|
    ensures |mono| == |left|
    decreases |left|
  {
    if |left| == 0 then []
    else MonoMerge(left[..|left| - 1], right[..|right| - 1]) + [MonoSample(left[|left| - 1], right[|right| - 1])]
  }

  /** Each mono sample is the truncated mean of the two channels and lies between them. */
  lemma {:induction false} MonoMergeAt(left: seq<Byte>, right: seq<Byte>, i: nat)
    requires |left| == |right| && i < |left|
    ensures MonoMerge(left, right)[i] == (left[i] as int + right[i] as int) / 2
    ensures Min(left[i], right[i]) <= MonoMerge(left, right)[i] <= Max(left[i], right[i])
    decreases |left|
  {
    if i < |left| - 1 {
      MonoMergeAt(left[..|left| - 1], right[..|right| - 1], i);
    }
  }

  function Min(a: int, b: int): int { if a <= b then a else b }
  function Max(a: int, b: int): int { if a <= b then b else a }

  /**
   * The merge loop of both visualizers: for every index below the buffer length, the mono
   * array receives the half-sum of the two channel arrays; the channels are only read.
   */
  method MergeInto(left: array<Byte>, right: array<Byte>, mono: array<Byte>)
    requires left.Length == right.Length == mono.Length
    requires mono != left && mono != right
    modifies mono
    ensures mono[..] == MonoMerge(left[..], right[..])
    ensures left[..] == old(left[..]) && right[..] == old(right[..])
  {
    var i := 0;
    while i < mono.Length
      invariant 0 <= i <= mono.Length
      invariant mono[..i] == MonoMerge(left[..i], right[..i])
    {
      var l := left[i];
      var r := right[i];
      mono[i] := MonoSample(l, r);
      assert left[..i + 1][..i] == left[..i] && right[..i + 1][..i] == right[..i];
      i := i + 1;
    }
    assert left[..i] == left[..] && right[..i] == right[..] && mono[..i] == mono[..];
  }

  // ---------------------------------------------------------------------------
  // Mean square of a time-domain buffer

  /** `(d - 128) / 128`: a time-domain byte mapped onto [-1, 1). */
  function Normalize(d: Byte): (v: real)
    ensures -1.0 <= v < 1.0
  {
    (d - 128) as real / 128.0
  }

  /** The sum of the squared normalised samples, accumulated from the first sample on. */
  function SumSquares(data: seq<Byte>): (sum: real)
    ensures 0.0 <= sum <= |data| as real
    decreases |data|
  {
    if |data| == 0 then 0.0
    else
      var v := Normalize(data[|data| - 1]);
      SquareBound(v);
      SumSquares(data[..|data| - 1]) + v * v
  }

  lemma SquareBound(v: real)
    requires -1.0 <= v <= 1.0
    ensures 0.0 <= v * v <= 1.0
  {
    var a := if v < 0.0 then -v else v;
    assert v * v == a * a;
    assert a * a <= a * 1.0;
  }

  /** `sum / data.length`, the value whose square root is the RMS loudness; it lies in [0, 1]. */
  function MeanSquare(data: seq<Byte>): (ms: real)
    requires |data| > 0
    ensures 0.0 <= ms <= 1.0
  {
    MeanBound(SumSquares(data), |data| as real);
    SumSquares(data) / |data| as real
  }

  lemma MeanBound(sum: real, n: real)
    requires n > 0.0 && 0.0 <= sum <= n
    ensures 0.0 <= sum / n <= 1.0
  {
  }

  /** The `rms` helper's loop: it accumulates the squared normalised samples of the whole buffer. */
  method MeanSquareOf(data: array<Byte>) returns (ms: real)
    requires data.Length > 0
    ensures ms == MeanSquare(data[..])
  {
    var sum := 0.0;
    var i := 0;
    while i < data.Length
      invariant 0 <= i <= data.Length
      invariant sum == SumSquares(data[..i])
    {
      var v := Normalize(data[i]);
      assert data[..i + 1][..i] == data[..i];
      sum := sum + v * v;
      i := i + 1;
    }
    assert data[..i] == data[..];
    ms := sum / data.Length as real;
  }

  /** root is the square root `Math.sqrt` returns for ms. */
  predicate IsRoot(root: real, ms: real)
  {
    root >= 0.0 && root * root == ms
  }

  /** The square root of a mean square in [0, 1] is again in [0, 1]. */
  lemma RootBounded(root: real, ms: real)
    requires 0.0 <= ms <= 1.0 && IsRoot(root, ms)
    ensures 0.0 <= root <= 1.0
  {
  }

  /** `(rmsLRaw + rmsRRaw) / 2`: the mono loudness is the mean of the two channel loudnesses. */
  function MonoLoudness(left: real, right: real): (m: real)
    requires 0.0 <= left <= 1.0 && 0.0 <= right <= 1.0
    ensures 0.0 <= m <= 1.0
    ensures (if left <= right then left else right) <= m <= (if left <= right then right else left)
  {
    (left + right) / 2.0
  }

  // ---------------------------------------------------------------------------
  // Exponential moving average

  /** The smoothing factor `alpha`. */
  const ALPHA: real := 0.1

  /** `smoothed * (1 - alpha) + raw * alpha`. */
  function Smooth(smoothed: real, raw: real): (next: real)
    ensures (if smoothed <= raw then smoothed else raw) <= next <= (if smoothed <= raw then raw else smoothed)
    ensures raw == 0.0 ==> next == 0.9 * smoothed
  {
    smoothed * (1.0 - ALPHA) + raw * ALPHA
  }

  /** The smoothed value after one update per raw reading, in order. */
  function SmoothAll(smoothed: real, raws: seq<real>): real
    decreases |raws|
  {
    if |raws| == 0 then smoothed else SmoothAll(Smooth(smoothed, raws[0]), raws[1..])
  }

  /** Starting in [0, 1], any run of readings in [0, 1] keeps the smoothed value in [0, 1]. */
  lemma {:induction false} SmoothAllBounded(smoothed: real, raws: seq<real>)
    requires 0.0 <= smoothed <= 1.0
    requires forall i :: 0 <= i < |raws| ==> 0.0 <= raws[i] <= 1.0
    ensures 0.0 <= SmoothAll(smoothed, raws) <= 1.0
    decreases |raws|
  {
    if |raws| > 0 {
      SmoothAllBounded(Smooth(smoothed, raws[0]), raws[1..]);
    }
  }

  function PowReal(x: real, k: nat): real
  {
    if k == 0 then 1.0 else x * PowReal(x, k - 1)
  }

  function Zeros(k: nat): (s: seq<real>)
    ensures |s| == k && forall i :: 0 <= i < k ==> s[i] == 0.0
  {
    if k == 0 then [] else [0.0] + Zeros(k - 1)
  }

  /** On silence the smoothed value decays geometrically: k silent readings scale it by 0.9^k. */
  lemma {:induction false} SilenceDecay(smoothed: real, k: nat)
    ensures SmoothAll(smoothed, Zeros(k)) == smoothed * PowReal(0.9, k)
    decreases k
  {
    if k > 0 {
      assert Zeros(k)[1..] == Zeros(k - 1);
      SilenceDecay(0.9 * smoothed, k - 1);
    }
  }
}
