/** The crossfade of lines 67-74 of clearwave.py: the head of the gated block is blended with
    the tail of the previous block through two linear ramps. */
module Crossfade {
  import opened Blocks

  /** `self.overlap`. */
  const Overlap: real := 0.5

  /** `int(len(audio_data) * self.overlap)`: the conversion truncates a non-negative product. */
  function FadeLength(n: nat): (l: nat)
    ensures l == n / 2
  {
    var p := n as real * Overlap;
    assert (n / 2) as real <= p < (n / 2 + 1) as real by {
      assert n == 2 * (n / 2) + n % 2;
    }
    p.Floor
  }

  /** `np.linspace(start, stop, num)`: `num` evenly spaced values, both ends included; a single
      value is `start`. */
  function Linspace(start: real, stop: real, num: nat): (r: seq<real>)
    ensures |r| == num
  {
    seq(num, k requires 0 <= k < num =>
      if num == 1 then start else start + k as real * ((stop - start) / (num - 1) as real))
  }

  /** One channel of lines 73-74: `g[:l] *= fade_in`, then `g[:l] += p[-l:] * fade_out`. With
      `l == 0` numpy's `p[-0:]` is all of `p`, and its product with the empty ramp is empty, so
      nothing is added; the model adds nothing as well. */
  function CrossfadeChannel(g: seq<real>, p: seq<real>): (r: seq<real>)
    requires |p| == |g|
    ensures |r| == |g|
  {
    var n := |g|;
    var l := FadeLength(n);
    var fadeIn := Linspace(0.0, 1.0, l);
    var fadeOut := Linspace(1.0, 0.0, l);
    seq(n, i requires 0 <= i < n =>
      if i < l then g[i] * fadeIn[i] + p[n - l + i] * fadeOut[i] else g[i])
  }

  /** The crossfade of every channel, with the same ramps. */
  function CrossfadeBlock(g: Block, p: Block): (r: Block)
    requires SameShape(p, g)
    ensures SameShape(r, g)
  {
    seq(|g|, ch requires 0 <= ch < |g| => CrossfadeChannel(g[ch], p[ch]))
  }

  // ---------------------------------------------------------------------------------------
  // The ramps

  /** `i / (l - 1)`: the weight of the gated frame `i` in a fade of `l >= 2` frames. */
  function Rise(l: nat, i: nat): real
    requires l >= 2
  {
    i as real / (l - 1) as real
  }

  /** The rising ramp goes from 0 to 1 in steps of `1/(l-1)`, the falling one is its mirror,
      and at every frame the two weights add up to one. */
  lemma RampsAt(l: nat, k: nat)
    requires l >= 2 && k < l
    ensures Linspace(0.0, 1.0, l)[k] == Rise(l, k)
    ensures Linspace(1.0, 0.0, l)[k] == 1.0 - Rise(l, k)
    ensures Linspace(0.0, 1.0, l)[k] + Linspace(1.0, 0.0, l)[k] == 1.0
    ensures 0.0 <= Linspace(0.0, 1.0, l)[k] <= 1.0
  {
    var d := (l - 1) as real;
    assert k as real * (1.0 / d) == k as real / d;
    assert k as real * ((0.0 - 1.0) / d) == -(k as real / d);
    assert k as real / d <= 1.0 by {
      assert k as real <= d;
    }
  }

  /** Both ramps of length two or more are pinned at their ends. */
  lemma RampEnds(l: nat)
    requires l >= 2
    ensures Linspace(0.0, 1.0, l)[0] == 0.0 && Linspace(0.0, 1.0, l)[l - 1] == 1.0
    ensures Linspace(1.0, 0.0, l)[0] == 1.0 && Linspace(1.0, 0.0, l)[l - 1] == 0.0
  {
    RampsAt(l, 0);
    RampsAt(l, l - 1);
  }

  // ---------------------------------------------------------------------------------------
  // The crossfaded channel

  /** Only the first `l` frames of every channel take part in the fade: every later frame is
      the gated frame, whatever the previous block was. */
  lemma CrossfadeKeepsTail(g: Block, p: Block, ch: nat, i: nat)
    requires SameShape(p, g) && ch < |g| && FadeLength(|g[ch]|) <= i < |g[ch]|
    ensures CrossfadeBlock(g, p)[ch][i] == g[ch][i]
  {
    assert CrossfadeBlock(g, p)[ch] == CrossfadeChannel(g[ch], p[ch]);
  }

  /** Inside the fade, frame `i` is `g[i] * i/(l-1) + p[n-l+i] * (1 - i/(l-1))`. */
  lemma CrossfadeRamp(g: seq<real>, p: seq<real>, i: nat)
    requires |p| == |g| && FadeLength(|g|) >= 2 && i < FadeLength(|g|)
    ensures var n, l := |g|, FadeLength(|g|);
      CrossfadeChannel(g, p)[i] == g[i] * Rise(l, i) + p[n - l + i] * (1.0 - Rise(l, i))
  {
    RampsAt(FadeLength(|g|), i);
  }

  /** Frame `i` of `g` faded in over its first `l` frames: scaled by `i/(l-1)` inside the fade,
      untouched after it. */
  function FadedIn(g: seq<real>, i: nat): real
    requires FadeLength(|g|) >= 2 && i < |g|
  {
    var l := FadeLength(|g|);
    if i < l then g[i] * Rise(l, i) else g[i]
  }

  /** Against silence the fade is a pure fade-in of the gated block. */
  lemma CrossfadeFromSilence(g: seq<real>, p: seq<real>, i: nat)
    requires |p| == |g| && FadeLength(|g|) >= 2 && i < |g|
    requires forall j :: 0 <= j < |p| ==> p[j] == 0.0
    ensures CrossfadeChannel(g, p)[i] == FadedIn(g, i)
    ensures i < FadeLength(|g|) ==> FadedIn(g, i) == g[i] * Rise(FadeLength(|g|), i)
    ensures i >= FadeLength(|g|) ==> FadedIn(g, i) == g[i]
  {
    if i < FadeLength(|g|) {
      CrossfadeRamp(g, p, i);
    }
  }

  /** The same fade-in for every channel of a block crossfaded against silence. */
  lemma CrossfadeBlockFromSilence(g: Block, p: Block, ch: nat, i: nat)
    requires SameShape(p, g) && IsSilent(p)
    requires ch < |g| && i < |g[ch]| && FadeLength(|g[ch]|) >= 2
    ensures CrossfadeBlock(g, p)[ch][i] == FadedIn(g[ch], i)
  {
    CrossfadeFromSilence(g[ch], p[ch], i);
  }

  /** A fade of one frame (blocks of two or three frames) replaces the first frame by the last
      frame of the previous block. */
  lemma CrossfadeSingleFrame(g: seq<real>, p: seq<real>)
    requires |p| == |g| && FadeLength(|g|) == 1
    ensures CrossfadeChannel(g, p)[0] == p[|g| - 1]
  {
  }

  /** The fade starts on frame `n - l` of the previous block and ends on the gated block. */
  lemma CrossfadeEnds(g: seq<real>, p: seq<real>)
    requires |p| == |g| && FadeLength(|g|) >= 2
    ensures var n, l := |g|, FadeLength(|g|);
      CrossfadeChannel(g, p)[0] == p[n - l] && CrossfadeChannel(g, p)[l - 1] == g[l - 1]
  {
    RampEnds(FadeLength(|g|));
  }

  /** Two blocks in a row: the second starts with frame `n - l` of the first, which the first
      block's own fade did not touch. So the step across the boundary is the difference
      between that frame and the last one of the first gated block, and it vanishes when those
      two agree (a constant tail). */
  lemma BoundaryAfterTwoBlocks(g1: seq<real>, g2: seq<real>, p: seq<real>)
    requires |p| == |g1| == |g2| && FadeLength(|g1|) >= 2
    ensures var n, l := |g1|, FadeLength(|g1|);
      var first := CrossfadeChannel(g1, p);
      var second := CrossfadeChannel(g2, first);
      second[0] == g1[n - l] && first[n - 1] == g1[n - 1] &&
      (g1[n - l] == g1[n - 1] ==> second[0] == first[n - 1])
  {
    var first := CrossfadeChannel(g1, p);
    CrossfadeEnds(g2, first);
  }
}
