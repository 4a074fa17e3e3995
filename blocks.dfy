/** Audio blocks. A block is held channel by channel: `b[ch][i]` is frame `i` of channel `ch`,
    the sample numpy stores at `audio_data[i, ch]`. */
module Blocks {

  function Abs(x: real): real {
    if x < 0.0 then -x else x
  }

  type Channel = seq<real>
  type Block = seq<Channel>

  /** Every channel has the same number of frames, as in a frames-by-channels matrix. */
  predicate IsMatrix(b: Block) {
    forall ch :: 0 <= ch < |b| ==> |b[ch]| == |b[0]|
  }

  /** The same number of channels, and channel for channel the same number of frames. */
  predicate SameShape(a: Block, b: Block) {
    |a| == |b| && forall ch :: 0 <= ch < |a| ==> |a[ch]| == |b[ch]|
  }

  /** The number of frames of a block with at least one channel. */
  function Frames(b: Block): nat
    requires |b| > 0
  {
    |b[0]|
  }

  /** `np.zeros_like`: silence of the same shape. */
  function ZerosLike(b: Block): (z: Block)
    ensures SameShape(z, b)
    ensures forall ch, i :: 0 <= ch < |z| && 0 <= i < |z[ch]| ==> z[ch][i] == 0.0
  {
    seq(|b|, ch requires 0 <= ch < |b| => seq(|b[ch]|, i => 0.0))
  }

  /** Every sample is zero. */
  predicate IsSilent(b: Block) {
    forall ch, i :: 0 <= ch < |b| && 0 <= i < |b[ch]| ==> b[ch][i] == 0.0
  }

  /** The block view of a frames-by-channels array. */
  function ToChannels(a: array2<real>): (b: Block)
    reads a
    ensures |b| == a.Length1 && IsMatrix(b)
    ensures forall ch :: 0 <= ch < |b| ==> |b[ch]| == a.Length0
    ensures forall ch, i :: 0 <= ch < a.Length1 && 0 <= i < a.Length0 ==> b[ch][i] == a[i, ch]
  {
    seq(a.Length1, ch requires 0 <= ch < a.Length1 reads a =>
      seq(a.Length0, i requires 0 <= i < a.Length0 reads a => a[i, ch]))
  }

  /** An array holds a block when it has the block's shape and the block's samples. */
  lemma ToChannelsOf(a: array2<real>, b: Block)
    requires |b| == a.Length1
    requires forall ch :: 0 <= ch < |b| ==> |b[ch]| == a.Length0
    requires forall ch, i :: 0 <= ch < |b| && 0 <= i < a.Length0 ==> a[i, ch] == b[ch][i]
    ensures ToChannels(a) == b
  {
    var c := ToChannels(a);
    forall ch | 0 <= ch < |b|
      ensures c[ch] == b[ch]
    {
    }
  }
}
