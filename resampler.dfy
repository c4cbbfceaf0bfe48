/** The box-filter resampler of the live session (`downsampleBuffer`):
    output sample i is the mean of the input samples whose indices lie in
    [round(i * ratio), round((i + 1) * ratio)), clipped to the input, where
    ratio = inputRate / outputRate and round is Math.round. Samples are exact
    reals; the Float32Array storage rounding of the original is not modelled. */
module Resampler {
  import opened Js

  function Min(a: int, b: int): int { if a <= b then a else b }

  /** The sum of a run of samples. */
  function Sum(s: seq<real>): real {
    if s == [] then 0.0 else Sum(s[..|s| - 1]) + s[|s| - 1]
  }

  /** First input index of output window i. */
  function WindowStart(i: nat, ratio: real): (lo: nat)
    requires ratio > 0.0
  {
    NonNegativeProduct(i as real, ratio);
    Round(i as real * ratio)
  }

  lemma NonNegativeProduct(a: real, b: real)
    requires a >= 0.0 && b > 0.0
    ensures a * b >= 0.0
  {
  }

  /** The mean of s[lo..hi] clipped to the input, or 0 for an empty window. */
  function WindowMean(s: seq<real>, lo: nat, hi: int): real {
    var h := Min(hi, |s|);
    if lo < h then Sum(s[lo..h]) / (h - lo) as real else 0.0
  }

  /** The number of output samples, Math.round(n / ratio). */
  function OutputLength(n: nat, ratio: real): (len: nat)
    requires ratio > 0.0
  {
    assert n as real / ratio >= 0.0;
    Round(n as real / ratio)
  }

  /** What `downsampleBuffer` returns for a buffer with contents s. */
  function Downsample(s: seq<real>, inputRate: real, outputRate: real): (r: seq<real>)
    requires inputRate > 0.0 && outputRate > 0.0
    ensures inputRate == outputRate ==> r == s
    ensures inputRate != outputRate ==> |r| == OutputLength(|s|, inputRate / outputRate)
  {
    if inputRate == outputRate then s
    else
      var ratio := inputRate / outputRate;
      seq(OutputLength(|s|, ratio),
          i requires 0 <= i < OutputLength(|s|, ratio) =>
            WindowMean(s, WindowStart(i, ratio), WindowStart(i + 1, ratio)))
  }

  /** Output sample k of a resampling at ratio `ratio`. */
  function WindowAverage(s: seq<real>, ratio: real, k: nat): real
    requires ratio > 0.0
  {
    WindowMean(s, WindowStart(k, ratio), WindowStart(k + 1, ratio))
  }

  lemma DownsampleAt(s: seq<real>, inputRate: real, outputRate: real, k: nat)
    requires inputRate > 0.0 && outputRate > 0.0 && inputRate != outputRate
    ensures |Downsample(s, inputRate, outputRate)| == OutputLength(|s|, inputRate / outputRate)
    ensures k < OutputLength(|s|, inputRate / outputRate) ==>
      Downsample(s, inputRate, outputRate)[k] == WindowAverage(s, inputRate / outputRate, k)
  {
  }

  /** The imperative resampler: equal rates return the very same buffer;
      otherwise a fresh array is filled window by window, each window starting
      where the previous one ended. */
  method DownsampleBuffer(buffer: array<real>, inputRate: real, outputRate: real)
    returns (result: array<real>)
    requires inputRate > 0.0 && outputRate > 0.0
    ensures inputRate == outputRate ==> result == buffer
    ensures inputRate != outputRate ==> fresh(result)
    ensures result[..] == Downsample(buffer[..], inputRate, outputRate)
  {
    if outputRate == inputRate {
      return buffer;
    }
    var ratio := inputRate / outputRate;
    var newLength := Round(buffer.Length as real / ratio);
    DownsampleAt(buffer[..], inputRate, outputRate, 0);
    result := new real[newLength];
    FillWindows(buffer, result, ratio);
    forall k | 0 <= k < newLength
      ensures result[k] == Downsample(buffer[..], inputRate, outputRate)[k]
    {
      DownsampleAt(buffer[..], inputRate, outputRate, k);
    }
  }

  /** The outer loop of `downsampleBuffer`: fills every output slot with the
      average of its window, the cursor into the input moving from one window
      boundary to the next. */
  method FillWindows(buffer: array<real>, result: array<real>, ratio: real)
    requires ratio > 0.0 && buffer != result
    modifies result
    ensures forall k :: 0 <= k < result.Length ==> result[k] == WindowAverage(buffer[..], ratio, k)
  {
    var offsetResult := 0;
    var offsetBuffer := 0;
    while offsetResult < result.Length
      invariant 0 <= offsetResult <= result.Length
      invariant offsetBuffer == WindowStart(offsetResult, ratio)
      invariant forall k :: 0 <= k < offsetResult ==> result[k] == WindowAverage(buffer[..], ratio, k)
    {
      var nextOffsetBuffer := Round((offsetResult + 1) as real * ratio);
      assert nextOffsetBuffer == WindowStart(offsetResult + 1, ratio);
      result[offsetResult] := AverageWindow(buffer, offsetBuffer, nextOffsetBuffer);
      offsetResult := offsetResult + 1;
      offsetBuffer := nextOffsetBuffer;
    }
  }

  /** The inner loop of `downsampleBuffer`: accumulates buffer[lo..hi),
      clipped to the buffer, and divides by the count, or yields 0 when the
      clipped window is empty. */
  method AverageWindow(buffer: array<real>, lo: nat, hi: int) returns (mean: real)
    ensures mean == WindowMean(buffer[..], lo, hi)
  {
    var accum, count := 0.0, 0;
    var i := lo;
    while i < hi && i < buffer.Length
      invariant lo <= i
      invariant i > lo ==> i <= hi && i <= buffer.Length
      invariant count == i - lo
      invariant i > lo ==> accum == Sum(buffer[lo..i])
      invariant i == lo ==> accum == 0.0
    {
      assert buffer[lo..i + 1][..i - lo] == buffer[lo..i];
      accum := accum + buffer[i];
      count := count + 1;
      i := i + 1;
    }
    mean := if count > 0 then accum / count as real else 0.0;
  }

  // ---------------------------------------------------------------------
  // Properties of the resampler
  // ---------------------------------------------------------------------

  /** The length law: equal rates keep the length, otherwise the output has
      round(n * outputRate / inputRate) samples. */
  lemma DownsampleLength(s: seq<real>, inputRate: real, outputRate: real)
    requires inputRate > 0.0 && outputRate > 0.0
    ensures |Downsample(s, inputRate, outputRate)| ==
      if inputRate == outputRate then |s| else Round(|s| as real * outputRate / inputRate)
  {
    if inputRate != outputRate {
      var ratio := inputRate / outputRate;
      assert |s| as real / ratio == |s| as real * outputRate / inputRate;
    }
  }

  lemma MulMonotone(a: real, b: real, r: real)
    requires a <= b && r > 0.0
    ensures a * r <= b * r
  {
  }

  /** Window boundaries never decrease, so later windows start no earlier
      than earlier windows end. */
  lemma WindowStartMonotone(i: nat, j: nat, ratio: real)
    requires ratio > 0.0 && i <= j
    ensures WindowStart(i, ratio) <= WindowStart(j, ratio)
  {
    MulMonotone(i as real, j as real, ratio);
    RoundMonotone(i as real * ratio, j as real * ratio);
  }

  /** Every input index below the end of the last window lies in exactly one
      of the first `count` windows: the windows are contiguous and disjoint. */
  lemma {:induction false} WindowContaining(ratio: real, count: nat, k: nat) returns (i: nat)
    requires ratio > 0.0 && k < WindowStart(count, ratio)
    ensures i < count && WindowStart(i, ratio) <= k < WindowStart(i + 1, ratio)
    ensures forall j: nat :: j < count && WindowStart(j, ratio) <= k < WindowStart(j + 1, ratio) ==> j == i
  {
    if count == 0 {
      assert false;
    } else if k < WindowStart(count - 1, ratio) {
      i := WindowContaining(ratio, count - 1, k);
      if WindowStart(count - 1, ratio) <= k {
        assert false;
      }
    } else {
      i := count - 1;
    }
    forall j: nat | j < count && WindowStart(j, ratio) <= k < WindowStart(j + 1, ratio)
      ensures j == i
    {
      if j < i {
        WindowStartMonotone(j + 1, i, ratio);
      } else if i < j {
        WindowStartMonotone(i + 1, j, ratio);
      }
    }
  }

  /** Splitting a run of samples splits its sum. */
  lemma {:induction false} SumSplit(s: seq<real>, a: nat, b: nat, c: nat)
    requires a <= b <= c <= |s|
    ensures Sum(s[a..c]) == Sum(s[a..b]) + Sum(s[b..c])
    decreases c - b
  {
    if b < c {
      SumSplit(s, a, b, c - 1);
      assert s[a..c][..c - 1 - a] == s[a..c - 1];
      assert s[b..c][..c - 1 - b] == s[b..c - 1];
    } else {
      assert s[b..c] == [];
    }
  }

  /** How many input samples window i averages, after clipping. */
  function WindowCount(n: nat, ratio: real, i: nat): nat
    requires ratio > 0.0
  {
    var lo := WindowStart(i, ratio);
    var h := Min(WindowStart(i + 1, ratio), n);
    if lo < h then h - lo else 0
  }

  /** The samples of the first `count` windows, each weighted by its window's
      size: the total the resampler's output stands for. */
  function WeightedTotal(s: seq<real>, ratio: real, count: nat): real
    requires ratio > 0.0
  {
    if count == 0 then 0.0
    else
      WeightedTotal(s, ratio, count - 1)
      + WindowCount(|s|, ratio, count - 1) as real * WindowAverage(s, ratio, count - 1)
  }

  /** The sum of s[lo..hi) clipped to the input. */
  function ClippedSum(s: seq<real>, lo: nat, hi: int): real {
    var h := Min(hi, |s|);
    if lo < h then Sum(s[lo..h]) else 0.0
  }

  /** The clipped sums of the consecutive windows [start(i), start(i + 1))
      for i below count. */
  function WindowsSum(s: seq<real>, start: nat -> nat, count: nat): real {
    if count == 0 then 0.0 else WindowsSum(s, start, count - 1) + ClippedSum(s, start(count - 1), start(count))
  }

  /** Consecutive windows that start at 0 and never move backwards add up to
      the clipped prefix they cover. */
  lemma {:induction false} WindowsSumTelescopes(s: seq<real>, start: nat -> nat, count: nat)
    requires start(0) == 0
    requires forall i: nat :: start(i) <= start(i + 1)
    ensures WindowsSum(s, start, count) == Sum(s[..Min(|s|, start(count))])
  {
    if count == 0 {
      assert s[..0] == [];
    } else {
      WindowsSumTelescopes(s, start, count - 1);
      var lo, hi := start(count - 1), start(count);
      var p, q := Min(|s|, lo), Min(|s|, hi);
      if lo < q {
        SumSplit(s, 0, lo, q);
        assert s[0..lo] == s[..p] && s[0..q] == s[..q];
      }
    }
  }

  /** No input sample is counted twice and none inside the covered range is
      skipped: the window averages, weighted by window size, add up to exactly
      the sum of the input prefix the windows cover. */
  lemma {:induction false} WeightedTotalIsPrefixSum(s: seq<real>, ratio: real, count: nat)
    requires ratio > 0.0
    ensures WeightedTotal(s, ratio, count) == Sum(s[..Min(|s|, WindowStart(count, ratio))])
  {
    var start: nat -> nat := i => WindowStart(i, ratio);
    forall i: nat ensures start(i) <= start(i + 1) {
      WindowStartMonotone(i, i + 1, ratio);
    }
    assert start(0) == 0 by { assert 0 as real * ratio == 0.0; }
    WindowsSumTelescopes(s, start, count);
    WeightedTotalIsWindowsSum(s, ratio, count, start);
  }

  lemma {:induction false} WeightedTotalIsWindowsSum(s: seq<real>, ratio: real, count: nat, start: nat -> nat)
    requires ratio > 0.0
    requires forall i: nat :: start(i) == WindowStart(i, ratio)
    ensures WeightedTotal(s, ratio, count) == WindowsSum(s, start, count)
  {
    if count > 0 {
      WeightedTotalIsWindowsSum(s, ratio, count - 1, start);
      WeightedWindow(s, ratio, count - 1);
    }
  }

  /** A window's average times its size is the clipped sum of the window. */
  lemma WeightedWindow(s: seq<real>, ratio: real, i: nat)
    requires ratio > 0.0
    ensures WindowCount(|s|, ratio, i) as real * WindowAverage(s, ratio, i)
      == ClippedSum(s, WindowStart(i, ratio), WindowStart(i + 1, ratio))
  {
    var c := WindowCount(|s|, ratio, i);
    if c > 0 {
      var lo := WindowStart(i, ratio);
      var h := Min(WindowStart(i + 1, ratio), |s|);
      DivTimes(Sum(s[lo..h]), c as real);
    }
  }

  lemma DivTimes(x: real, m: real)
    requires m != 0.0
    ensures m * (x / m) == x
  {
  }

  /** The sum of samples that all lie in [a, b] lies between m * a and m * b. */
  lemma {:induction false} SumBounds(s: seq<real>, a: real, b: real)
    requires forall i :: 0 <= i < |s| ==> a <= s[i] <= b
    ensures |s| as real * a <= Sum(s) <= |s| as real * b
  {
    if s != [] {
      SumBounds(s[..|s| - 1], a, b);
    }
  }

  lemma MeanBounds(total: real, m: nat, a: real, b: real)
    requires m > 0 && m as real * a <= total <= m as real * b
    ensures a <= total / m as real <= b
  {
    var mean := total / m as real;
    assert total == mean * m as real;
  }

  /** A window's mean stays within the range of the samples it averages. */
  lemma WindowMeanBounds(s: seq<real>, lo: nat, hi: int, a: real, b: real)
    requires forall i :: 0 <= i < |s| ==> a <= s[i] <= b
    requires Min(hi, |s|) > lo
    ensures a <= WindowMean(s, lo, hi) <= b
  {
    var h := Min(hi, |s|);
    SumBounds(s[lo..h], a, b);
    MeanBounds(Sum(s[lo..h]), h - lo, a, b);
  }

  /** Resampling keeps every sample inside any range that holds the input and
      0 (the value of an empty window); in particular [-1, 1] audio stays in
      [-1, 1]. */
  lemma DownsampleBounded(s: seq<real>, inputRate: real, outputRate: real, a: real, b: real)
    requires inputRate > 0.0 && outputRate > 0.0
    requires a <= 0.0 <= b
    requires forall i :: 0 <= i < |s| ==> a <= s[i] <= b
    ensures forall i :: 0 <= i < |Downsample(s, inputRate, outputRate)| ==>
      a <= Downsample(s, inputRate, outputRate)[i] <= b
  {
    if inputRate != outputRate {
      var ratio := inputRate / outputRate;
      forall k | 0 <= k < |Downsample(s, inputRate, outputRate)|
        ensures a <= Downsample(s, inputRate, outputRate)[k] <= b
      {
        DownsampleAt(s, inputRate, outputRate, k);
        var lo := WindowStart(k, ratio);
        var hi := WindowStart(k + 1, ratio);
        if Min(hi, |s|) > lo {
          WindowMeanBounds(s, lo, hi, a, b);
        }
      }
    }
  }

  /** When downsampling (ratio above 1), every output window holds at least
      one input sample. */
  lemma DownsampleWindowNonEmpty(n: nat, ratio: real, k: nat)
    requires ratio > 1.0 && k < OutputLength(n, ratio)
    ensures WindowStart(k, ratio) < Min(WindowStart(k + 1, ratio), n)
  {
    var q := n as real / ratio;
    var len := OutputLength(n, ratio);
    assert len as real <= q + 0.5;
    assert k as real <= q - 0.5;
    MulMonotone(k as real, q - 0.5, ratio);
    assert (q - 0.5) * ratio == n as real - 0.5 * ratio;
    assert k as real * ratio + 0.5 < n as real;
    assert (k + 1) as real * ratio == k as real * ratio + ratio;
    RoundMonotone(k as real * ratio + 1.0, (k + 1) as real * ratio);
    assert Round(k as real * ratio + 1.0) == Round(k as real * ratio) + 1;
  }

  /** A constant input downsamples to the same constant (the scenario of a
      steady tone captured above the target rate). */
  lemma DownsampleConstant(s: seq<real>, inputRate: real, outputRate: real, c: real)
    requires inputRate > outputRate > 0.0
    requires forall i :: 0 <= i < |s| ==> s[i] == c
    ensures forall i :: 0 <= i < |Downsample(s, inputRate, outputRate)| ==>
      Downsample(s, inputRate, outputRate)[i] == c
  {
    var ratio := inputRate / outputRate;
    assert ratio > 1.0 by {
      assert ratio * outputRate == inputRate;
      if ratio <= 1.0 {
        MulMonotone(ratio, 1.0, outputRate);
      }
    }
    forall k | 0 <= k < |Downsample(s, inputRate, outputRate)|
      ensures Downsample(s, inputRate, outputRate)[k] == c
    {
      DownsampleAt(s, inputRate, outputRate, k);
      DownsampleWindowNonEmpty(|s|, ratio, k);
      WindowMeanBounds(s, WindowStart(k, ratio), WindowStart(k + 1, ratio), c, c);
    }
  }

  /** A 4096-sample frame of 0.5 captured at 48 kHz becomes 2048 samples of
      0.5 at the 24 kHz target rate. */
  lemma HalfRateFrame()
    ensures var out := Downsample(seq(4096, _ => 0.5), 48000.0, 24000.0);
      |out| == 2048 && forall i :: 0 <= i < |out| ==> out[i] == 0.5
  {
    var frame := seq(4096, _ => 0.5);
    DownsampleLength(frame, 48000.0, 24000.0);
    DownsampleConstant(frame, 48000.0, 24000.0, 0.5);
  }
}
