/** The per-channel spectral noise gate of `AudioProcessor.callback` (clearwave.py, lines 37-65):
    forward transform, magnitude threshold, keep-mask, mask smoothing, masking, inverse
    transform, length guard and write-back. Arithmetic is over `real`. */
module SpectralGate {
  import opened Outcomes
  import opened Blocks

  /** One frequency bin `amplitude * e^(i*phase)`. Every complex number has this form, and
      scaling by a real only scales the amplitude, so `|z|` needs no square root. */
  datatype Bin = Bin(amplitude: real, phase: real)

  /** `np.abs` of one bin. */
  function Magnitude(b: Bin): real {
    Abs(b.amplitude)
  }

  /** `np.fft.rfft` and `np.fft.irfft`, foreign code about which only the lengths are known. */
  datatype FftPair = FftPair(forward: seq<real> -> seq<Bin>, inverse: seq<Bin> -> seq<real>)

  /** numpy's length laws: `n` samples give `n/2 + 1` bins, `m` bins give `2(m - 1)` samples. */
  ghost predicate ValidFft(f: FftPair) {
    (forall x: seq<real> :: |x| > 0 ==> |f.forward(x)| == |x| / 2 + 1) &&
    (forall z: seq<Bin> :: |z| > 1 ==> |f.inverse(z)| == 2 * (|z| - 1))
  }

  function Sum(s: seq<real>): real {
    if s == [] then 0.0 else s[0] + Sum(s[1..])
  }

  /** `np.mean`. */
  function Mean(s: seq<real>): real
    requires |s| > 0
  {
    Sum(s) / |s| as real
  }

  function Magnitudes(bins: seq<Bin>): (m: seq<real>)
    ensures |m| == |bins|
    ensures forall k :: 0 <= k < |m| ==> 0.0 <= m[k]
  {
    seq(|bins|, k requires 0 <= k < |bins| => Magnitude(bins[k]))
  }

  /** `magnitudes > threshold`. */
  function KeepMask(magnitudes: seq<real>, threshold: real): (mask: seq<bool>)
    ensures |mask| == |magnitudes|
  {
    seq(|magnitudes|, k requires 0 <= k < |magnitudes| => magnitudes[k] > threshold)
  }

  /** `mask.astype(float)`. */
  function AsReals(mask: seq<bool>): (r: seq<real>)
    ensures |r| == |mask|
  {
    seq(|mask|, k requires 0 <= k < |mask| => if mask[k] then 1.0 else 0.0)
  }

  /** `np.hanning(5)`: `0.5 - 0.5 cos(2 pi n / 4)` for `n = 0..4`. */
  const HannWindow5: seq<real> := [0.0, 0.5, 1.0, 0.5, 0.0]

  /** `smoothing_window / smoothing_window.sum()`. */
  function SmoothingKernel(): (k: seq<real>)
    ensures k == [0.0, 0.25, 0.5, 0.25, 0.0]
  {
    var total := Sum(HannWindow5);
    assert total == 2.0;
    seq(|HannWindow5|, t requires 0 <= t < |HannWindow5| => HannWindow5[t] / total)
  }

  /** Sample `j` of `a`, zero outside it (convolution's zero-padding). */
  function Tap(a: seq<real>, j: int): real {
    if 0 <= j < |a| then a[j] else 0.0
  }

  /** The first `t` terms of `sum_u short[u] * a[i + c - u]`. */
  function WindowSum(long: seq<real>, short: seq<real>, i: int, c: int, t: nat): real
    requires t <= |short|
  {
    if t == 0 then 0.0 else WindowSum(long, short, i, c, t - 1) + short[t - 1] * Tap(long, i + c - (t - 1))
  }

  /** `np.convolve(a, v, mode='same')`: the operands are swapped when `v` is the longer, the
      result is as long as the longer one, and it is centred `n/2` taps in, `n` the length of
      the shorter one. */
  function ConvolveSame(a: seq<real>, v: seq<real>): (r: Outcome<seq<real>>)
    ensures r.Done? <==> |a| > 0 && |v| > 0
    ensures r.Done? ==> |r.value| == if |v| > |a| then |v| else |a|
  {
    if |a| == 0 || |v| == 0 then Raised(EmptyOperand)
    else
      var long := if |v| > |a| then v else a;
      var short := if |v| > |a| then a else v;
      var n := |short|;
      var c := n - 1 - n / 2;
      Done(seq(|long|, i => WindowSum(long, short, i, c, n)))
  }

  /** `freq_data *= smoothed_mask`: elementwise, or one factor broadcast over all bins; any
      other pair of lengths cannot be written back in place. */
  function ScaleInPlace(bins: seq<Bin>, factors: seq<real>): (r: Outcome<seq<Bin>>)
    ensures r.Done? <==> |factors| == |bins| || |factors| == 1
    ensures r.Done? ==> |r.value| == |bins|
  {
    if |factors| == |bins| then
      Done(seq(|bins|, k requires 0 <= k < |bins| => Bin(bins[k].amplitude * factors[k], bins[k].phase)))
    else if |factors| == 1 then
      Done(seq(|bins|, k requires 0 <= k < |bins| => Bin(bins[k].amplitude * factors[0], bins[k].phase)))
    else
      Raised(NonBroadcastable)
  }

  /** The guard of lines 61-62: a slice `clean_audio[:n]`, which can only shorten. */
  function TrimTo(y: seq<real>, n: nat): (r: seq<real>)
    ensures |r| <= |y| && |r| <= n
    ensures |r| == if |y| < n then |y| else n
    ensures r == y[..|r|]
  {
    if |y| != n then y[..if |y| < n then |y| else n] else y
  }

  /** `audio_data[:, ch] = y` for a column of `n` frames: equal lengths, or one value broadcast. */
  function AssignColumn(y: seq<real>, n: nat): (r: Outcome<seq<real>>)
    ensures r.Done? <==> |y| == n || |y| == 1
    ensures r.Done? ==> |r.value| == n
  {
    if |y| == n then Done(y)
    else if |y| == 1 then Done(seq(n, _ => y[0]))
    else Raised(NonBroadcastable)
  }

  /** The smoothed keep-mask of one channel. */
  function SmoothMask(mask: seq<bool>): Outcome<seq<real>> {
    ConvolveSame(AsReals(mask), SmoothingKernel())
  }

  /** The frame counts for which the gate of one channel does not raise. */
  predicate GateAccepts(n: nat) {
    n >= 8 && n % 2 == 0
  }

  /** Line 45: `np.mean(magnitudes) * self.noise_reduction`. */
  function Threshold(bins: seq<Bin>, strength: real): real
    requires |bins| > 0
  {
    Mean(Magnitudes(bins)) * strength
  }

  /** Lines 46-57 for a given threshold: keep-mask, smoothing and the in-place product with the
      smoothed mask. */
  function MaskAbove(bins: seq<Bin>, threshold: real): (r: Outcome<seq<Bin>>)
    ensures r.Done? ==> |r.value| == |bins|
  {
    match SmoothMask(KeepMask(Magnitudes(bins), threshold))
    case Raised(e) => Raised(e)
    case Done(smoothed) => ScaleInPlace(bins, smoothed)
  }

  /** Lines 42-57 for the spectrum of one channel. */
  function MaskSpectrum(bins: seq<Bin>, strength: real): (r: Outcome<seq<Bin>>)
    requires |bins| > 0
    ensures r.Done? ==> |r.value| == |bins|
  {
    MaskAbove(bins, Threshold(bins, strength))
  }

  /** Lines 41-65 for one channel `x` at noise-reduction `strength`. */
  function GateChannel(f: FftPair, x: seq<real>, strength: real): (r: Outcome<seq<real>>)
    requires ValidFft(f)
    ensures r.Done? ==> |r.value| == |x|
  {
    if |x| == 0 then Raised(EmptyTransform)
    else
      match MaskSpectrum(f.forward(x), strength)
      case Raised(e) => Raised(e)
      case Done(masked) => AssignColumn(TrimTo(f.inverse(masked), |x|), |x|)
  }

  /** The outcomes of a run of steps taken in order: the first fault, or every value. */
  function Collect(rs: seq<Outcome<seq<real>>>): (r: Outcome<seq<seq<real>>>)
    ensures r.Done? ==> |r.value| == |rs|
  {
    if rs == [] then Done([])
    else
      match rs[0]
      case Raised(e) => Raised(e)
      case Done(y) =>
        match Collect(rs[1..])
        case Raised(e) => Raised(e)
        case Done(rest) => Done([y] + rest)
  }

  /** A run of steps succeeds exactly when every step does, and then keeps every step's value
      in its place. */
  lemma {:induction false} CollectDoneIff(rs: seq<Outcome<seq<real>>>)
    ensures Collect(rs).Done? <==> forall k :: 0 <= k < |rs| ==> rs[k].Done?
    ensures Collect(rs).Done? ==> forall k :: 0 <= k < |rs| ==> rs[k] == Done(Collect(rs).value[k])
  {
    if rs != [] {
      CollectDoneIff(rs[1..]);
      assert forall k :: 1 <= k < |rs| ==> rs[1..][k - 1] == rs[k];
    }
  }

  /** The `for ch` loop: every channel gated in turn; the first channel that raises ends it, and
      its fault is the loop's. */
  function GateBlock(f: FftPair, channels: seq<seq<real>>, strength: real): (r: Outcome<seq<seq<real>>>)
    requires ValidFft(f)
    ensures r.Done? ==> |r.value| == |channels|
    ensures r.Done? ==> forall ch :: 0 <= ch < |channels| ==> |r.value[ch]| == |channels[ch]|
  {
    var rs := seq(|channels|, ch requires 0 <= ch < |channels| => GateChannel(f, channels[ch], strength));
    CollectDoneIff(rs);
    assert forall ch :: 0 <= ch < |channels| ==> rs[ch] == GateChannel(f, channels[ch], strength);
    Collect(rs)
  }

  /** The loop produces a block exactly when every channel's gate does, and then holds each
      channel's gated samples in its place. */
  lemma GateBlockChannels(f: FftPair, channels: seq<seq<real>>, strength: real)
    requires ValidFft(f)
    ensures GateBlock(f, channels, strength).Done? <==>
      forall ch :: 0 <= ch < |channels| ==> GateChannel(f, channels[ch], strength).Done?
    ensures GateBlock(f, channels, strength).Done? ==>
      forall ch :: 0 <= ch < |channels| ==>
        GateChannel(f, channels[ch], strength) == Done(GateBlock(f, channels, strength).value[ch])
  {
    var rs := seq(|channels|, ch requires 0 <= ch < |channels| => GateChannel(f, channels[ch], strength));
    CollectDoneIff(rs);
    assert GateBlock(f, channels, strength) == Collect(rs);
    assert forall ch :: 0 <= ch < |channels| ==> rs[ch] == GateChannel(f, channels[ch], strength);
  }

  // ---------------------------------------------------------------------------------------
  // Properties of the threshold and the keep-mask

  lemma {:induction false} SumOfNonNegative(s: seq<real>)
    requires forall k :: 0 <= k < |s| ==> 0.0 <= s[k]
    ensures 0.0 <= Sum(s)
    ensures (exists k :: 0 <= k < |s| && 0.0 < s[k]) ==> 0.0 < Sum(s)
  {
    if s != [] {
      SumOfNonNegative(s[1..]);
      if exists k :: 0 <= k < |s| && 0.0 < s[k] {
        var k :| 0 <= k < |s| && 0.0 < s[k];
        if k > 0 {
          assert s[1..][k - 1] == s[k];
        }
      }
    }
  }

  lemma {:induction false} SumBelowBound(s: seq<real>, c: real)
    requires |s| > 0
    requires forall k :: 0 <= k < |s| ==> s[k] < c
    ensures Sum(s) < |s| as real * c
  {
    if |s| > 1 {
      SumBelowBound(s[1..], c);
    }
  }

  /** Some value is at least the mean. */
  lemma MeanIsReached(s: seq<real>) returns (k: nat)
    requires |s| > 0
    ensures k < |s| && s[k] >= Mean(s)
  {
    if forall j :: 0 <= j < |s| ==> s[j] < Mean(s) {
      SumBelowBound(s, Mean(s));
      assert false;
    }
    k :| 0 <= k < |s| && s[k] >= Mean(s);
  }

  /** A bin is kept exactly when its magnitude is strictly above `mean * strength`. */
  lemma KeepMaskMeaning(magnitudes: seq<real>, strength: real, k: nat)
    requires 0 < |magnitudes| && k < |magnitudes|
    ensures KeepMask(magnitudes, Mean(magnitudes) * strength)[k] <==>
      magnitudes[k] > Sum(magnitudes) / |magnitudes| as real * strength
  {
  }

  /** Unless the spectrum is all zero, a strength below one keeps at least one bin. */
  lemma GateKeepsSomeBin(magnitudes: seq<real>, strength: real) returns (k: nat)
    requires forall j :: 0 <= j < |magnitudes| ==> 0.0 <= magnitudes[j]
    requires exists j :: 0 <= j < |magnitudes| && 0.0 < magnitudes[j]
    requires strength < 1.0
    ensures k < |magnitudes| && KeepMask(magnitudes, Mean(magnitudes) * strength)[k]
  {
    SumOfNonNegative(magnitudes);
    k := MeanIsReached(magnitudes);
    var m := Mean(magnitudes);
    PositiveQuotient(Sum(magnitudes), |magnitudes| as real);
    AboveFraction(magnitudes[k], m, strength);
    assert KeepMask(magnitudes, m * strength)[k];
  }

  /** A silent spectrum keeps no bin at all: the comparison is strict, so a zero threshold does
      not let a zero magnitude through. */
  lemma {:induction false} SilenceKeepsNothing(magnitudes: seq<real>, strength: real)
    requires |magnitudes| > 0
    requires forall j :: 0 <= j < |magnitudes| ==> magnitudes[j] == 0.0
    ensures var mask := KeepMask(magnitudes, Mean(magnitudes) * strength);
      forall k :: 0 <= k < |mask| ==> !mask[k]
  {
    SumOfZeros(magnitudes);
  }

  lemma {:induction false} SumOfZeros(s: seq<real>)
    requires forall k :: 0 <= k < |s| ==> s[k] == 0.0
    ensures Sum(s) == 0.0
  {
    if s != [] {
      SumOfZeros(s[1..]);
    }
  }

  // ---------------------------------------------------------------------------------------
  // Properties of the smoothed mask

  function Bit(mask: seq<bool>, j: int): real {
    if 0 <= j < |mask| && mask[j] then 1.0 else 0.0
  }

  /** With at least five bins the smoothed mask has one value per bin, and that value is
      `0.25 m[i-1] + 0.5 m[i] + 0.25 m[i+1]`, bins outside the spectrum counting as zero. */
  lemma SmoothMaskAt(mask: seq<bool>, i: nat)
    requires |mask| >= 5 && i < |mask|
    ensures SmoothMask(mask).Done? && |SmoothMask(mask).value| == |mask|
    ensures SmoothMask(mask).value[i] == 0.25 * Bit(mask, i - 1) + 0.5 * Bit(mask, i) + 0.25 * Bit(mask, i + 1)
  {
    var a := AsReals(mask);
    var kernel := SmoothingKernel();
    assert Tap(a, i - 1) == Bit(mask, i - 1);
    assert Tap(a, i) == Bit(mask, i);
    assert Tap(a, i + 1) == Bit(mask, i + 1);
    assert WindowSum(a, kernel, i, 2, 1) == 0.0 * Tap(a, i + 2);
    assert WindowSum(a, kernel, i, 2, 2) == WindowSum(a, kernel, i, 2, 1) + 0.25 * Tap(a, i + 1);
    assert WindowSum(a, kernel, i, 2, 3) == WindowSum(a, kernel, i, 2, 2) + 0.5 * Tap(a, i);
    assert WindowSum(a, kernel, i, 2, 4) == WindowSum(a, kernel, i, 2, 3) + 0.25 * Tap(a, i - 1);
    assert WindowSum(a, kernel, i, 2, 5) == WindowSum(a, kernel, i, 2, 4) + 0.0 * Tap(a, i - 2);
  }

  /** Every smoothed value lies in [0, 1]. */
  lemma SmoothMaskInUnitRange(mask: seq<bool>, i: nat)
    requires |mask| >= 5 && i < |mask|
    ensures 0.0 <= SmoothMask(mask).value[i] <= 1.0
  {
    SmoothMaskAt(mask, i);
  }

  /** A smoothed value is zero exactly when the bin and both its neighbours were dropped. */
  lemma SmoothMaskZeroIff(mask: seq<bool>, i: nat)
    requires |mask| >= 5 && i < |mask|
    ensures SmoothMask(mask).value[i] == 0.0 <==> Bit(mask, i - 1) == Bit(mask, i) == Bit(mask, i + 1) == 0.0
  {
    SmoothMaskAt(mask, i);
  }

  /** A smoothed value is one exactly when the bin and both its neighbours inside the spectrum
      were kept, which can only happen away from the two ends. */
  lemma SmoothMaskOneIff(mask: seq<bool>, i: nat)
    requires |mask| >= 5 && i < |mask|
    ensures SmoothMask(mask).value[i] == 1.0 <==>
      0 < i < |mask| - 1 && mask[i - 1] && mask[i] && mask[i + 1]
  {
    SmoothMaskAt(mask, i);
  }

  /** A mask that keeps every bin smooths to one inside and to 0.75 at the first and last bin. */
  lemma SmoothAllKept(mask: seq<bool>)
    requires |mask| >= 5 && forall k :: 0 <= k < |mask| ==> mask[k]
    ensures SmoothMask(mask).Done? && |SmoothMask(mask).value| == |mask|
    ensures SmoothMask(mask).value[0] == 0.75 && SmoothMask(mask).value[|mask| - 1] == 0.75
    ensures forall i :: 0 < i < |mask| - 1 ==> SmoothMask(mask).value[i] == 1.0
  {
    SmoothMaskAt(mask, 0);
    SmoothMaskAt(mask, |mask| - 1);
    forall i | 0 < i < |mask| - 1
      ensures SmoothMask(mask).value[i] == 1.0
    {
      SmoothMaskAt(mask, i);
    }
  }

  /** Fewer than five bins: numpy returns five smoothed values, which cannot be multiplied into
      the spectrum in place. */
  lemma ShortMaskDoesNotFit(bins: seq<Bin>, mask: seq<bool>)
    requires 0 < |mask| < 5 && |bins| == |mask|
    ensures SmoothMask(mask).Done? && |SmoothMask(mask).value| == 5
    ensures ScaleInPlace(bins, SmoothMask(mask).value).Raised?
  {
  }

  // ---------------------------------------------------------------------------------------
  // Properties of masking and of the whole gate

  /** Masking scales each magnitude by its mask value, so a mask in [0, 1] never amplifies. */
  lemma MaskingScalesMagnitudes(bins: seq<Bin>, mask: seq<bool>, k: nat)
    requires |mask| >= 5 && |bins| == |mask| && k < |bins|
    ensures ScaleInPlace(bins, SmoothMask(mask).value).Done?
    ensures Magnitude(ScaleInPlace(bins, SmoothMask(mask).value).value[k]) ==
      SmoothMask(mask).value[k] * Magnitude(bins[k])
    ensures Magnitude(ScaleInPlace(bins, SmoothMask(mask).value).value[k]) <= Magnitude(bins[k])
    ensures ScaleInPlace(bins, SmoothMask(mask).value).value[k].phase == bins[k].phase
  {
    SmoothMaskAt(mask, k);
    SmoothMaskInUnitRange(mask, k);
    var sm := SmoothMask(mask).value;
    var scaled := ScaleInPlace(bins, sm);
    assert scaled.Done?;
    assert scaled.value[k] == Bin(bins[k].amplitude * sm[k], bins[k].phase);
    UnitFactorShrinks(sm[k], bins[k].amplitude);
  }

  /** Whether bin `j` is above the threshold, as 1 or 0; bins outside the spectrum count as 0. */
  function Kept(bins: seq<Bin>, threshold: real, j: int): real {
    if 0 <= j < |bins| && Magnitude(bins[j]) > threshold then 1.0 else 0.0
  }

  /** With at least five bins, masking at a threshold keeps every phase and scales bin `k` by
      `0.25 kept(k-1) + 0.5 kept(k) + 0.25 kept(k+1)`. */
  lemma MaskAboveAt(bins: seq<Bin>, threshold: real, k: nat)
    requires |bins| >= 5 && k < |bins|
    ensures MaskAbove(bins, threshold).Done?
    ensures MaskAbove(bins, threshold).value[k] ==
      Bin(bins[k].amplitude * (0.25 * Kept(bins, threshold, k - 1) + 0.5 * Kept(bins, threshold, k) +
        0.25 * Kept(bins, threshold, k + 1)), bins[k].phase)
  {
    var mask := KeepMask(Magnitudes(bins), threshold);
    SmoothMaskAt(mask, k);
    assert Bit(mask, k - 1) == Kept(bins, threshold, k - 1);
    assert Bit(mask, k) == Kept(bins, threshold, k);
    assert Bit(mask, k + 1) == Kept(bins, threshold, k + 1);
  }

  /** The masked spectrum of a channel: bin `k` keeps its phase and is scaled by the smoothed
      count of its neighbourhood above `mean * strength`. */
  lemma MaskSpectrumAt(bins: seq<Bin>, strength: real, k: nat)
    requires |bins| >= 5 && k < |bins|
    ensures MaskSpectrum(bins, strength).Done?
    ensures var t := Mean(Magnitudes(bins)) * strength;
      MaskSpectrum(bins, strength).value[k] ==
        Bin(bins[k].amplitude * (0.25 * Kept(bins, t, k - 1) + 0.5 * Kept(bins, t, k) + 0.25 * Kept(bins, t, k + 1)),
          bins[k].phase)
  {
    MaskAboveAt(bins, Threshold(bins, strength), k);
  }

  /** A factor in [0, 1] scales a magnitude down. */
  lemma UnitFactorShrinks(m: real, a: real)
    requires 0.0 <= m <= 1.0
    ensures Abs(a * m) == m * Abs(a) && m * Abs(a) <= Abs(a)
  {
    if a < 0.0 {
      assert a * m <= 0.0;
    }
    assert Abs(a) - m * Abs(a) == (1.0 - m) * Abs(a);
  }

  lemma PositiveQuotient(a: real, n: real)
    requires 0.0 < a && 0.0 < n
    ensures 0.0 < a / n
  {
  }

  /** A strength below one puts the threshold below a positive mean, and so below any value
      that reaches the mean. */
  lemma AboveFraction(a: real, m: real, strength: real)
    requires 0.0 < m <= a && strength < 1.0
    ensures a > m * strength
  {
    assert m - m * strength == m * (1.0 - strength);
  }

  /** The gate of one channel runs to the end exactly when the channel has an even number of
      frames, at least eight: fewer frames give fewer than five bins (the smoothed mask does not
      fit), and an odd count comes back from the inverse transform one frame short, which the
      length guard cannot pad. */
  lemma {:induction false} GateChannelDoneIff(f: FftPair, x: seq<real>, strength: real)
    requires ValidFft(f)
    ensures GateChannel(f, x, strength).Done? <==> GateAccepts(|x|)
  {
    if |x| > 0 {
      var bins := f.forward(x);
      var mask := KeepMask(Magnitudes(bins), Threshold(bins, strength));
      assert |mask| == |x| / 2 + 1;
      var smoothed := SmoothMask(mask);
      if |mask| >= 5 {
        assert |smoothed.value| == |mask|;
        var masked := MaskSpectrum(bins, strength).value;
        assert |f.inverse(masked)| == 2 * (|x| / 2);
      } else {
        assert |smoothed.value| == 5;
      }
    }
  }

  /** The gated channel has exactly as many frames as the channel it came from. */
  lemma GateChannelKeepsLength(f: FftPair, x: seq<real>, strength: real)
    requires ValidFft(f) && GateAccepts(|x|)
    ensures GateChannel(f, x, strength).Done? && |GateChannel(f, x, strength).value| == |x|
  {
    GateChannelDoneIff(f, x, strength);
  }

  /** For an accepted frame count the gated channel is the inverse transform of the masked
      spectrum, at its full length: the length guard has nothing to cut. */
  lemma GateChannelValue(f: FftPair, x: seq<real>, strength: real)
    requires ValidFft(f) && GateAccepts(|x|)
    ensures MaskSpectrum(f.forward(x), strength).Done?
    ensures GateChannel(f, x, strength) == Done(f.inverse(MaskSpectrum(f.forward(x), strength).value))
  {
    GateChannelDoneIff(f, x, strength);
    var masked := MaskSpectrum(f.forward(x), strength).value;
    assert |f.inverse(masked)| == |x|;
  }

  /** The loop over channels succeeds for all channels or for none: every channel of a block has
      the same frame count, and only the frame count decides. */
  lemma GateBlockDoneIff(f: FftPair, channels: seq<seq<real>>, strength: real)
    requires ValidFft(f) && |channels| > 0
    requires forall ch :: 0 <= ch < |channels| ==> |channels[ch]| == |channels[0]|
    ensures GateBlock(f, channels, strength).Done? <==> GateAccepts(|channels[0]|)
  {
    GateBlockChannels(f, channels, strength);
    forall ch | 0 <= ch < |channels|
      ensures GateChannel(f, channels[ch], strength).Done? <==> GateAccepts(|channels[0]|)
    {
      GateChannelDoneIff(f, channels[ch], strength);
    }
  }
}
