/** Peak normalisation of lines 79-82 of clearwave.py: `max_val = np.max(np.abs(audio_data))`,
    and when it is positive every sample becomes `x / max_val * 0.9`. */
module Normalizer {
  import opened Outcomes
  import opened Blocks

  /** The level the loudest sample is brought to. */
  const Headroom: real := 0.9

  function Max(a: real, b: real): real {
    if a < b then b else a
  }

  /** The largest `|x|` over one channel, zero for an empty one. */
  function ChannelPeak(s: seq<real>): (m: real)
    ensures 0.0 <= m
  {
    if s == [] then 0.0 else Max(Abs(s[0]), ChannelPeak(s[1..]))
  }

  /** The largest `|x|` over a block, zero for a block without samples. */
  function Peak(b: Block): (m: real)
    ensures 0.0 <= m
  {
    if b == [] then 0.0 else Max(ChannelPeak(b[0]), Peak(b[1..]))
  }

  /** Some channel holds a sample; `np.max` raises on an empty array. */
  predicate HasSamples(b: Block) {
    exists ch :: 0 <= ch < |b| && |b[ch]| > 0
  }

  /** `x / max_val * 0.9`. */
  function Rescale(x: real, m: real): real
    requires m > 0.0
  {
    x / m * Headroom
  }

  /** Lines 80-82. */
  function Normalize(b: Block): (r: Outcome<Block>)
    ensures r.Done? <==> HasSamples(b)
    ensures r.Done? ==> SameShape(r.value, b)
  {
    if !HasSamples(b) then Raised(EmptyReduction)
    else
      var m := Peak(b);
      if m > 0.0 then
        Done(seq(|b|, ch requires 0 <= ch < |b| =>
          seq(|b[ch]|, i requires 0 <= i < |b[ch]| => Rescale(b[ch][i], m))))
      else Done(b)
  }

  // ---------------------------------------------------------------------------------------
  // The peak

  lemma {:induction false} ChannelPeakBounds(s: seq<real>, i: nat)
    requires i < |s|
    ensures Abs(s[i]) <= ChannelPeak(s)
  {
    if i > 0 {
      ChannelPeakBounds(s[1..], i - 1);
    }
  }

  /** No sample is louder than the peak. */
  lemma {:induction false} PeakBounds(b: Block, ch: nat, i: nat)
    requires ch < |b| && i < |b[ch]|
    ensures Abs(b[ch][i]) <= Peak(b)
  {
    if ch == 0 {
      ChannelPeakBounds(b[0], i);
    } else {
      PeakBounds(b[1..], ch - 1, i);
    }
  }

  lemma {:induction false} ChannelPeakAttained(s: seq<real>) returns (i: nat)
    requires |s| > 0
    ensures i < |s| && Abs(s[i]) == ChannelPeak(s)
  {
    if |s| == 1 || Abs(s[0]) >= ChannelPeak(s[1..]) {
      i := 0;
    } else {
      var j := ChannelPeakAttained(s[1..]);
      i := j + 1;
    }
  }

  lemma {:induction false} PeakOfEmpty(b: Block)
    requires !HasSamples(b)
    ensures Peak(b) == 0.0
  {
    if b != [] {
      assert forall c :: 1 <= c < |b| ==> b[1..][c - 1] == b[c];
      PeakOfEmpty(b[1..]);
    }
  }

  /** Some sample is exactly as loud as the peak. */
  lemma {:induction false} PeakAttained(b: Block) returns (ch: nat, i: nat)
    requires HasSamples(b)
    ensures ch < |b| && i < |b[ch]| && Abs(b[ch][i]) == Peak(b)
  {
    assert forall c :: 1 <= c < |b| ==> b[1..][c - 1] == b[c];
    if !HasSamples(b[1..]) {
      PeakOfEmpty(b[1..]);
      assert |b[0]| > 0;
      ch := 0;
      i := ChannelPeakAttained(b[0]);
    } else {
      var c, j := PeakAttained(b[1..]);
      if |b[0]| > 0 && ChannelPeak(b[0]) >= Peak(b[1..]) {
        ch := 0;
        i := ChannelPeakAttained(b[0]);
      } else {
        ch, i := c + 1, j;
      }
    }
  }

  /** The peak is zero exactly when every sample is zero. */
  lemma PeakZeroIffSilent(b: Block)
    ensures Peak(b) == 0.0 <==> IsSilent(b)
  {
    if Peak(b) == 0.0 {
      forall ch, i | 0 <= ch < |b| && 0 <= i < |b[ch]|
        ensures b[ch][i] == 0.0
      {
        PeakBounds(b, ch, i);
      }
    }
    if HasSamples(b) {
      var ch, i := PeakAttained(b);
    } else {
      PeakOfEmpty(b);
    }
  }

  // ---------------------------------------------------------------------------------------
  // The normalised block

  /** One sample `x / m * 0.9` of a block whose peak is `m`: a positive multiple of `x`, and no
      louder than 0.9, exactly 0.9 when `x` is as loud as the peak. */
  lemma RescaledSample(x: real, m: real)
    requires 0.0 < m && Abs(x) <= m
    ensures Rescale(x, m) == x * (Headroom / m) && Headroom / m > 0.0
    ensures Abs(Rescale(x, m)) <= Headroom
    ensures Abs(x) == m ==> Abs(Rescale(x, m)) == Headroom
  {
    var k := Headroom / m;
    assert Abs(x * k) == Abs(x) * k by {
      if x < 0.0 { assert x * k < 0.0; }
    }
    assert Abs(x) * k <= m * k by {
      assert m * k - Abs(x) * k == (m - Abs(x)) * k;
    }
    assert m * k == Headroom;
  }

  lemma NormalizedSampleIsRescaled(b: Block, ch: nat, i: nat)
    requires HasSamples(b) && Peak(b) > 0.0 && ch < |b| && i < |b[ch]|
    ensures Normalize(b).value[ch][i] == Rescale(b[ch][i], Peak(b))
  {
  }

  /** `y / y' == x / x'`, written without division. */
  predicate SameRatio(y: real, y': real, x: real, x': real) {
    y * x' == y' * x
  }

  /** Rescaling by one positive factor keeps every ratio and every sign. */
  lemma RescaleKeepsRatiosAndSigns(x: real, x': real, m: real)
    requires 0.0 < m
    ensures SameRatio(Rescale(x, m), Rescale(x', m), x, x')
    ensures (Rescale(x, m) > 0.0 <==> x > 0.0) && (Rescale(x, m) < 0.0 <==> x < 0.0)
  {
    var k := Headroom / m;
    assert k > 0.0;
    assert Rescale(x, m) == x * k && Rescale(x', m) == x' * k;
    assert x * k * x' == x' * k * x;
    if x > 0.0 { assert x * k > 0.0; }
    if x < 0.0 { assert x * k < 0.0; }
    if x == 0.0 { assert x * k == 0.0; }
  }

  /** A loud block is scaled by one positive factor, which keeps every sign and every ratio
      between two samples. */
  lemma NormalizeKeepsRatiosAndSigns(b: Block, ch: nat, i: nat, ch': nat, i': nat)
    requires HasSamples(b) && Peak(b) > 0.0
    requires ch < |b| && i < |b[ch]| && ch' < |b| && i' < |b[ch']|
    ensures var y := Normalize(b).value;
      SameRatio(y[ch][i], y[ch'][i'], b[ch][i], b[ch'][i']) &&
      (y[ch][i] > 0.0 <==> b[ch][i] > 0.0) && (y[ch][i] < 0.0 <==> b[ch][i] < 0.0)
  {
    NormalizedSampleIsRescaled(b, ch, i);
    NormalizedSampleIsRescaled(b, ch', i');
    RescaleKeepsRatiosAndSigns(b[ch][i], b[ch'][i'], Peak(b));
  }

  /** After normalisation no sample is louder than 0.9, and when the block was not silent some
      sample is exactly 0.9 loud. */
  lemma NormalizeBounds(b: Block) returns (ch: nat, i: nat)
    requires HasSamples(b)
    ensures var y := Normalize(b).value;
      forall c, j :: 0 <= c < |y| && 0 <= j < |y[c]| ==> Abs(y[c][j]) <= Headroom
    ensures Peak(b) > 0.0 ==> ch < |b| && i < |b[ch]| && Abs(Normalize(b).value[ch][i]) == Headroom
  {
    var y := Normalize(b).value;
    var m := Peak(b);
    ch, i := PeakAttained(b);
    if m > 0.0 {
      forall c, j | 0 <= c < |y| && 0 <= j < |y[c]|
        ensures Abs(y[c][j]) <= Headroom
      {
        PeakBounds(b, c, j);
        RescaledSample(b[c][j], m);
      }
      RescaledSample(b[ch][i], m);
    } else {
      PeakZeroIffSilent(b);
    }
  }

  /** A silent block is returned as it is. */
  lemma NormalizeSilent(b: Block)
    requires HasSamples(b) && IsSilent(b)
    ensures Normalize(b) == Done(b)
  {
    PeakZeroIffSilent(b);
  }

  /** Normalising twice is normalising once: the loudest sample is already at 0.9. */
  lemma NormalizeIdempotent(b: Block)
    requires HasSamples(b)
    ensures Normalize(b).Done? && Normalize(Normalize(b).value) == Normalize(b)
  {
    var y := Normalize(b).value;
    var c :| 0 <= c < |b| && |b[c]| > 0;
    assert |y[c]| > 0;
    if Peak(b) > 0.0 {
      var ch, i := NormalizeBounds(b);
      var ch', i' := PeakAttained(y);
      PeakBounds(y, ch, i);
      assert Peak(y) == Headroom;
      var z := Normalize(y).value;
      forall c | 0 <= c < |z|
        ensures z[c] == y[c]
      {
        forall j | 0 <= j < |y[c]|
          ensures z[c][j] == y[c][j]
        {
          assert z[c][j] == Rescale(y[c][j], Headroom);
        }
      }
      assert z == y;
    }
  }
}
