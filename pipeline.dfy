/** The per-block transform of `AudioProcessor.callback` as a function of the input block, the
    retained previous block and the noise-reduction strength. The first `try` (clearwave.py,
    lines 26-89) gates, crossfades, stores the state and normalises; the second `try`
    (lines 91-136) recomputes from the input and always raises before it changes any state. */
module Pipeline {
  import opened Outcomes
  import opened Blocks
  import opened SpectralGate
  import opened Crossfade
  import opened Normalizer

  /** The retained block after the call, and what the stage produced: a block, or the fault
      that sent it to its `except`. */
  datatype StageResult = StageResult(state: Block, output: Outcome<Block>)

  /** Every channel of `p` has the frame count of the block `x`. */
  predicate FramesAgree(p: Block, x: Block) {
    |x| > 0 ==> forall ch :: 0 <= ch < |p| ==> |p[ch]| == |x[0]|
  }

  /** What the transport may hand the callback: a frames-by-channels block, and a retained
      block with as many frames. The retained block may have another channel count: it can
      come from an earlier session that was opened with other devices. */
  predicate Admissible(x: Block, prev: Option<Block>) {
    IsMatrix(x) && (prev.Some? ==> FramesAgree(prev.value, x))
  }

  /** Lines 33-34: the retained block, silence when there is none yet. */
  function StartState(x: Block, prev: Option<Block>): (p: Block)
    requires Admissible(x, prev)
    ensures FramesAgree(p, x)
    ensures prev.None? ==> SameShape(p, x) && IsSilent(p)
  {
    if prev.None? then ZerosLike(x) else prev.value
  }

  /** Line 74 multiplies the retained block's tail into `c` channels in place: numpy accepts
      the same channel count, or a single channel that it repeats for every channel. */
  predicate ChannelsBroadcast(p: Block, c: nat) {
    |p| == c || |p| == 1
  }

  /** The retained block as broadcast over `c` channels. */
  function Spread(p: Block, c: nat): (q: Block)
    requires ChannelsBroadcast(p, c)
    ensures |q| == c
    ensures |p| == c ==> q == p
    ensures |p| != c ==> forall ch :: 0 <= ch < c ==> q[ch] == p[0]
  {
    if |p| == c then p else seq(c, _ => p[0])
  }

  /** A broadcast retained block lines up with the gated block. */
  lemma SpreadFits(x: Block, p: Block, g: Block)
    requires IsMatrix(x) && FramesAgree(p, x) && ChannelsBroadcast(p, |x|)
    requires SameShape(g, x)
    ensures SameShape(Spread(p, |g|), g)
  {
    var q := Spread(p, |g|);
    forall ch | 0 <= ch < |g|
      ensures |q[ch]| == |g[ch]|
    {
      assert |g[ch]| == |x[ch]| == |x[0]|;
    }
  }

  /** The retained block fits the block (no retained block always fits). */
  predicate FitsState(x: Block, prev: Option<Block>) {
    prev.None? || ChannelsBroadcast(prev.value, |x|)
  }

  /** Lines 26-86: gate every channel, crossfade with the retained block, keep a copy of the
      crossfaded block, normalise it. A retained block whose channels do not broadcast makes
      line 74 raise before line 77 replaces it. */
  function DenoiseStage(f: FftPair, x: Block, prev: Option<Block>, strength: real): StageResult
    requires ValidFft(f) && Admissible(x, prev)
  {
    var p := StartState(x, prev);
    match GateBlock(f, x, strength)
    case Raised(e) => StageResult(p, Raised(e))
    case Done(g) =>
      if !ChannelsBroadcast(p, |g|) then StageResult(p, Raised(NonBroadcastable))
      else
        SpreadFits(x, p, g);
        var c := CrossfadeBlock(g, Spread(p, |g|));
        StageResult(c, Normalize(c))
  }

  /** `outdata` after the first `try`: the produced block, or the input (line 89). */
  function Emitted(x: Block, r: StageResult): Block {
    if r.output.Done? then r.output.value else x
  }

  // ---------------------------------------------------------------------------------------
  // The second `try` block, as written

  /** `np.convolve` accepts one-dimensional operands only. */
  function ConvolveRankCheck(rank: nat): Outcome<()> {
    if rank == 1 then Done(()) else Raised(TooDeep)
  }

  /** Lines 101-107 take the transform along the frame axis of the whole block, so the mask
      handed to `np.convolve` at line 108 keeps both axes. */
  const SecondStageMaskRank: nat := 2

  /** Lines 91-110, up to the call that raises; nothing in them changes the retained block. */
  function SecondStage(x: Block): Outcome<Block> {
    if |x| > 0 && Frames(x) == 0 then Raised(EmptyTransform)
    else
      match ConvolveRankCheck(SecondStageMaskRank)
      case Raised(e) => Raised(e)
      case Done(_) => Done(x)
  }

  /** `outdata` at the end of the callback as written: the second `try` writes its own result,
      or the input when it raises (line 136). */
  function EmittedAsWritten(f: FftPair, x: Block, prev: Option<Block>, strength: real): Block
    requires ValidFft(f) && Admissible(x, prev)
  {
    // Whatever the first stage wrote to `outdata`, the second `try` writes it again.
    match SecondStage(x)
    case Raised(_) => x
    case Done(y) => y
  }

  // ---------------------------------------------------------------------------------------
  // Properties of the first stage

  /** The stage produces a block exactly when the block has a channel and an even number of
      frames, at least eight, and the retained block's channels broadcast against it;
      otherwise the callback falls back to the input. */
  lemma StageSucceedsIff(f: FftPair, x: Block, prev: Option<Block>, strength: real)
    requires ValidFft(f) && Admissible(x, prev)
    ensures DenoiseStage(f, x, prev, strength).output.Done? <==>
      |x| > 0 && GateAccepts(Frames(x)) && FitsState(x, prev)
  {
    if |x| > 0 {
      GateBlockDoneIff(f, x, strength);
      var g := GateBlock(f, x, strength);
      var p := StartState(x, prev);
      if g.Done? && ChannelsBroadcast(p, |x|) {
        SpreadFits(x, p, g.value);
        var c := CrossfadeBlock(g.value, Spread(p, |x|));
        assert |c[0]| == |x[0]|;
      }
    }
  }

  /** On success the retained block is the gated block crossfaded with the (broadcast)
      retained block, before normalisation, with the input's shape, and the output is that
      block normalised: a copy, so scaling the output leaves the state alone. */
  lemma StageStateIsCrossfade(f: FftPair, x: Block, prev: Option<Block>, strength: real)
    requires ValidFft(f) && Admissible(x, prev) && |x| > 0 && GateAccepts(Frames(x))
    requires FitsState(x, prev)
    ensures GateBlock(f, x, strength).Done?
    ensures SameShape(GateBlock(f, x, strength).value, x)
    ensures ChannelsBroadcast(StartState(x, prev), |x|)
    ensures SameShape(Spread(StartState(x, prev), |x|), GateBlock(f, x, strength).value)
    ensures var r := DenoiseStage(f, x, prev, strength);
      r.state == CrossfadeBlock(GateBlock(f, x, strength).value, Spread(StartState(x, prev), |x|)) &&
      r.output == Normalize(r.state) && SameShape(r.state, x)
  {
    GateBlockDoneIff(f, x, strength);
    SpreadFits(x, StartState(x, prev), GateBlock(f, x, strength).value);
  }

  /** A block that raises sends the input to the output. A block with a channel that raises
      leaves the retained block as it was before the call (silence for the first block), so the
      next block is crossfaded against the state from before the fault. (A block without
      channels gets through line 77 and only then raises in `np.max`.) */
  lemma StageFailureKeepsState(f: FftPair, x: Block, prev: Option<Block>, strength: real)
    requires ValidFft(f) && Admissible(x, prev)
    requires DenoiseStage(f, x, prev, strength).output.Raised?
    ensures |x| > 0 ==> DenoiseStage(f, x, prev, strength).state == StartState(x, prev)
    ensures Emitted(x, DenoiseStage(f, x, prev, strength)) == x
  {
    StageSucceedsIff(f, x, prev, strength);
    if |x| > 0 && GateBlock(f, x, strength).Done? && ChannelsBroadcast(StartState(x, prev), |x|) {
      GateBlockDoneIff(f, x, strength);
      assert false;
    }
  }

  /** Having no retained block is the same as retaining silence of the block's shape. */
  lemma NoStateIsSilence(f: FftPair, x: Block, strength: real)
    requires ValidFft(f) && Admissible(x, None)
    ensures Admissible(x, Some(ZerosLike(x)))
    ensures DenoiseStage(f, x, None, strength) == DenoiseStage(f, x, Some(ZerosLike(x)), strength)
  {
    assert StartState(x, None) == StartState(x, Some(ZerosLike(x)));
  }

  /** A produced block leaves a retained block of the input's shape, and so does any block
      when the retained block already had that shape (or there was none). */
  lemma StageStateKeepsShape(f: FftPair, x: Block, prev: Option<Block>, strength: real)
    requires ValidFft(f) && Admissible(x, prev)
    ensures DenoiseStage(f, x, prev, strength).output.Done? ==> SameShape(DenoiseStage(f, x, prev, strength).state, x)
    ensures prev.None? || SameShape(prev.value, x) ==> SameShape(DenoiseStage(f, x, prev, strength).state, x)
  {
    if DenoiseStage(f, x, prev, strength).output.Done? {
      StageSucceedsIff(f, x, prev, strength);
      StageStateIsCrossfade(f, x, prev, strength);
    }
  }

  /** A retained block left by a session on other devices, whose channels neither match nor
      broadcast, makes every block raise at line 74 and is never replaced: the output is the
      input and the state stays the stale block, so the next block meets the same block again. */
  lemma StaleStateSticks(f: FftPair, x: Block, p: Block, strength: real)
    requires ValidFft(f) && Admissible(x, Some(p)) && !ChannelsBroadcast(p, |x|)
    ensures DenoiseStage(f, x, Some(p), strength).output.Raised?
    ensures DenoiseStage(f, x, Some(p), strength).state == p
    ensures Emitted(x, DenoiseStage(f, x, Some(p), strength)) == x
  {
    StageSucceedsIff(f, x, Some(p), strength);
  }

  /** A retained single channel is repeated for every channel of a wider block: each channel
      fades against it, and the new retained block has the input's shape. */
  lemma MonoStateSpreads(f: FftPair, x: Block, p: Block, strength: real, ch: nat)
    requires ValidFft(f) && Admissible(x, Some(p)) && |p| == 1 && |x| > 1 && GateAccepts(Frames(x))
    requires ch < |x|
    ensures GateBlock(f, x, strength).Done? && |p[0]| == |GateBlock(f, x, strength).value[ch]|
    ensures var r := DenoiseStage(f, x, Some(p), strength);
      r.output.Done? && SameShape(r.state, x) &&
      r.state[ch] == CrossfadeChannel(GateBlock(f, x, strength).value[ch], p[0])
  {
    StageStateIsCrossfade(f, x, Some(p), strength);
  }

  /** A produced block has the input's shape and no sample louder than 0.9; unless it is
      silence, one sample is exactly 0.9 loud. */
  lemma StageOutputBounded(f: FftPair, x: Block, prev: Option<Block>, strength: real)
    returns (ch: nat, i: nat)
    requires ValidFft(f) && Admissible(x, prev)
    requires DenoiseStage(f, x, prev, strength).output.Done?
    ensures var y := DenoiseStage(f, x, prev, strength).output.value;
      SameShape(y, x) && forall c, j :: 0 <= c < |y| && 0 <= j < |y[c]| ==> Abs(y[c][j]) <= Headroom
    ensures var r := DenoiseStage(f, x, prev, strength);
      Peak(r.state) > 0.0 ==> ch < |x| && i < |x[ch]| && Abs(r.output.value[ch][i]) == Headroom
  {
    var r := DenoiseStage(f, x, prev, strength);
    StageSucceedsIff(f, x, prev, strength);
    StageStateIsCrossfade(f, x, prev, strength);
    ch, i := NormalizeBounds(r.state);
  }

  /** The first block of a session (no retained block, as after `__init__` or `stop()`) is a
      pure fade-in of the gated block: frame `i < l` is scaled by `i/(l-1)`, later frames are
      the gated frames. */
  lemma FirstBlockFadesIn(f: FftPair, x: Block, strength: real, ch: nat, i: nat)
    requires ValidFft(f) && Admissible(x, None) && |x| > 0 && GateAccepts(Frames(x))
    requires ch < |x| && i < |x[ch]|
    ensures GateBlock(f, x, strength).Done?
    ensures var g := GateBlock(f, x, strength).value;
      |g[ch]| == |x[ch]| && FadeLength(|x[ch]|) >= 4 &&
      DenoiseStage(f, x, None, strength).state[ch][i] == FadedIn(g[ch], i)
  {
    StageStateIsCrossfade(f, x, None, strength);
    var g := GateBlock(f, x, strength).value;
    var p := StartState(x, None);
    assert Spread(p, |x|) == p && IsSilent(p);
    assert |g[ch]| == |x[ch]| == |x[0]|;
    CrossfadeBlockFromSilence(g, p, ch, i);
  }

  // ---------------------------------------------------------------------------------------
  // The callback as written

  /** The second `try` raises for every block. */
  lemma SecondStageAlwaysRaises(x: Block)
    ensures SecondStage(x).Raised?
  {
  }

  /** As written, the callback always hands the raw input to the output: whatever the first
      stage produced is overwritten at line 136. */
  lemma PassThroughAsWritten(f: FftPair, x: Block, prev: Option<Block>, strength: real)
    requires ValidFft(f) && Admissible(x, prev)
    ensures EmittedAsWritten(f, x, prev, strength) == x
  {
    SecondStageAlwaysRaises(x);
  }

  /** One channel of eight frames ending on a full-scale sample: the first stage turns it into
      a block no louder than 0.9, but the callback as written emits the input unchanged. */
  lemma AsWrittenDiscardsDenoising(f: FftPair, strength: real)
    requires ValidFft(f)
    ensures var x := [[0.0, 0.0, 0.0, 0.0, 0.0, 0.0, 0.0, 1.0]];
      EmittedAsWritten(f, x, None, strength) == x &&
      Emitted(x, DenoiseStage(f, x, None, strength)) != x
  {
    var x := [[0.0, 0.0, 0.0, 0.0, 0.0, 0.0, 0.0, 1.0]];
    PassThroughAsWritten(f, x, None, strength);
    StageSucceedsIff(f, x, None, strength);
    var ch, i := StageOutputBounded(f, x, None, strength);
    var y := DenoiseStage(f, x, None, strength).output.value;
    assert Abs(y[0][7]) <= Headroom;
  }
}
