# ClearWave: a verified model of the per-block denoiser

ClearWave (`clearwave.py`) is a small desktop tool that takes system audio from a loopback
device (BlackHole or Soundflower), denoises it block by block and plays it to a chosen output
device. This project models its core in Dafny and proves what that core does:

- **The per-block transform** of `AudioProcessor.callback`. A spectral noise gate runs on every
  channel: forward transform, a threshold at `mean * strength`, a strict keep-mask, smoothing by
  the kernel `[0, 1/4, 1/2, 1/4, 0]`, masking, inverse transform and a length guard. Then comes
  a linear crossfade of the block's head with the tail of the retained previous block. The
  crossfaded block is kept as the new state and peak-normalised to 0.9. Any fault sends the
  input to the output instead.
- **The device and parameter rules.** The input is the first device whose name contains
  `BlackHole` or `Soundflower`. The channel count is the smaller of the two devices' limits.
  The output list holds the devices with an output channel, in list order. The slider's
  position divided by 100 is the gate strength.
- **The run/stop state** of the processor and the window. This covers `running`, `prev_buffer`
  and `output_device`, `stop`, the error path of `run`, and the Start/Stop button.

Blocks are channel-major `seq<seq<real>>`: `b[ch][i]` is frame `i` of channel `ch`.
`Blocks.ToChannels` connects them to the transport's `indata`/`outdata` buffers, which are
frames-by-channels `array2<real>`. Samples are `real`, so rounding is not modelled.

numpy's `rfft`/`irfft` are a pair of function values (`SpectralGate.FftPair`). Only numpy's
length laws are known about them (`ValidFft`): `n` samples give `n/2 + 1` bins, and `m` bins
give `2(m - 1)` samples. A bin is `amplitude * e^(i*phase)` with a signed amplitude. Its
magnitude is then `|amplitude|`, and multiplying it by a real scales the amplitude.

The numpy operations the callback uses are modelled with numpy's own rules:
- `np.convolve(..., mode='same')`: operand swap, centring and result length;
- in-place `*=`: broadcasting, or a fault;
- column assignment and slicing.

Those rules decide when a block raises. The gate of a channel runs to the end exactly when the
channel has an even number of frames and at least eight (`SpectralGate.GateChannelDoneIff`):
- with fewer than eight frames there are fewer than five bins, and the five smoothed values
  `np.convolve` returns for them do not fit the spectrum;
- with an odd count the inverse transform comes back one frame short, and the length guard
  can shorten but never pad.

The stream's block size of 2048 is accepted.

Some behaviours of the code are easy to miss, and the model keeps them as written:
- The slider is set to 30 ("Lower default value", line 220) before its signal is connected, and
  before the processor exists. The strength therefore stays at the processor's own 0.5 until
  the slider is moved (`Processor.Denoiser.constructor`).
- The keep-mask compares strictly, so a silent spectrum keeps no bin at all
  (`SpectralGate.SilenceKeepsNothing`). It does not keep every bin.
- A mask that keeps every bin smooths to 0.75 at the first and last bin, not to 1 everywhere
  (`SpectralGate.SmoothAllKept`).
- When a block raises, `prev_buffer` keeps what it was before the call. On the first block that
  is silence, because lines 33-34 run before the gate can raise.
- `prev_buffer` is cleared only by `stop()` (line 181). A session that ends through
  `show_error` (lines 260-263, reached from `run` or `update_device_info`) leaves it in place.
  The next session may have another channel count. A retained single channel is then repeated
  for every channel (`Pipeline.MonoStateSpreads`). Any other mismatch makes line 74 raise on
  every block, so the session passes its input through and the stale block is never replaced
  (`Pipeline.StaleStateSticks`).

The callback's second `try` block (lines 91-136) always raises, which makes the whole callback
a pass-through. This is recorded under "## Findings" below. The rest of the model uses the
first stage alone, `Processor.AudioProcessor.Callback`, as the intended callback.

Modules, one file each: `Outcomes` (faults and results), `Blocks`, `SpectralGate`,
`Crossfade`, `Normalizer`, `Pipeline` (the callback's stages as functions), `Devices` and
`Processor` (the two classes with their state).

## Model

| member | source | states |
|---|---|---|
| Blocks.ToChannels | clearwave.py:28 | the block view of a frames-by-channels buffer has one channel per column, each as long as the buffer, holding that column's samples |
| Blocks.ToChannelsOf | clearwave.py:85 | a block equal sample for sample to a buffer is the buffer's block view |
| Blocks.ZerosLike | clearwave.py:34 | `np.zeros_like`: a block of the same shape whose samples are all zero |
| SpectralGate.Magnitudes | clearwave.py:42 | one magnitude per bin, none negative |
| SpectralGate.KeepMask | clearwave.py:46 | the keep-mask has one entry per bin |
| SpectralGate.AsReals | clearwave.py:51 | the float mask has one entry per bin |
| SpectralGate.SmoothingKernel | clearwave.py:49-52 | `hanning(5)` divided by its sum is exactly `[0, 1/4, 1/2, 1/4, 0]` |
| SpectralGate.ConvolveSame | clearwave.py:50-54 | `np.convolve` in `'same'` mode succeeds exactly when both operands are non-empty, and then returns as many values as the longer operand has |
| SpectralGate.ScaleInPlace | clearwave.py:57 | the in-place product succeeds exactly when the factors match the bins one to one or are a single factor, and keeps the number of bins |
| SpectralGate.TrimTo | clearwave.py:61-62 | the length guard only shortens: the result is a prefix of the inverse transform, no longer than the channel |
| SpectralGate.AssignColumn | clearwave.py:65 | writing a column succeeds exactly for a column of the channel's length or a single broadcast value, and then fills the whole column |
| SpectralGate.MaskAbove | clearwave.py:46-57 | masking at a threshold keeps the number of bins |
| SpectralGate.MaskSpectrum | clearwave.py:42-57 | masking keeps the number of bins; the value of each bin is given by `MaskSpectrumAt` |
| SpectralGate.GateChannel | clearwave.py:41-65 | a gated channel has as many frames as the input channel |
| SpectralGate.Collect | clearwave.py:37-65 | a run of channel steps that finishes yields one value per step |
| SpectralGate.CollectDoneIff | clearwave.py:37-65 | the run finishes exactly when every step does, and then holds each step's value in its place |
| SpectralGate.GateBlock | clearwave.py:37-65 | the gated block has the input's shape |
| SpectralGate.GateBlockChannels | clearwave.py:37-65 | the channel loop succeeds exactly when every channel's gate does, and channel `ch` of the result is the gate of input channel `ch` |
| SpectralGate.SumOfNonNegative | clearwave.py:45 | a sum of magnitudes is non-negative, and positive when one of them is |
| SpectralGate.SumBelowBound | clearwave.py:45 | values all below `c` sum to less than `n * c` |
| SpectralGate.MeanIsReached | clearwave.py:45 | some magnitude is at least the mean |
| SpectralGate.KeepMaskMeaning | clearwave.py:45-46 | a bin is kept exactly when its magnitude is strictly above `mean * strength` |
| SpectralGate.GateKeepsSomeBin | clearwave.py:45-46 | with a strength below one, a spectrum that is not all zero keeps at least one bin |
| SpectralGate.SilenceKeepsNothing | clearwave.py:45-46 | an all-zero spectrum keeps no bin, because the comparison is strict |
| SpectralGate.SumOfZeros | clearwave.py:45 | zeros sum to zero |
| SpectralGate.SmoothMaskAt | clearwave.py:49-54 | with at least five bins the smoothed mask has one value per bin, and value `i` is `0.25 m[i-1] + 0.5 m[i] + 0.25 m[i+1]`, bins outside the spectrum counting as zero |
| SpectralGate.SmoothMaskInUnitRange | clearwave.py:49-54 | every smoothed value lies in [0, 1] |
| SpectralGate.SmoothMaskZeroIff | clearwave.py:49-54 | a smoothed value is zero exactly when the bin and both its neighbours were dropped |
| SpectralGate.SmoothMaskOneIff | clearwave.py:49-54 | a smoothed value is one exactly when it is an inner bin kept together with both neighbours |
| SpectralGate.SmoothAllKept | clearwave.py:49-54 | a mask that keeps every bin smooths to one inside and to 0.75 at the two ends |
| SpectralGate.ShortMaskDoesNotFit | clearwave.py:50-57 | with fewer than five bins the smoothed mask has five values and the in-place product raises |
| SpectralGate.MaskingScalesMagnitudes | clearwave.py:57 | masking multiplies each magnitude by its smoothed value, never amplifies, and keeps the phase |
| SpectralGate.MaskAboveAt | clearwave.py:46-57 | with at least five bins masking succeeds, keeps every phase and scales bin `k` by `0.25 kept(k-1) + 0.5 kept(k) + 0.25 kept(k+1)`, where `kept(j)` is 1 exactly when bin `j` exists and its magnitude is above the threshold |
| SpectralGate.MaskSpectrumAt | clearwave.py:42-57 | the same for the gate's own threshold `mean(magnitudes) * strength`: the masked bin `k` of a channel in terms of its neighbours' magnitudes |
| SpectralGate.UnitFactorShrinks | clearwave.py:57 | a factor in [0, 1] scales a magnitude down |
| SpectralGate.PositiveQuotient | clearwave.py:45 | a positive sum over a positive count has a positive mean |
| SpectralGate.AboveFraction | clearwave.py:45-46 | a value that reaches a positive mean is above a fraction below one of it |
| SpectralGate.GateChannelDoneIff | clearwave.py:41-65 | a channel's gate runs to the end exactly when the channel has an even number of frames, at least eight |
| SpectralGate.GateChannelKeepsLength | clearwave.py:58-65 | an accepted channel is gated to exactly its own length |
| SpectralGate.GateChannelValue | clearwave.py:57-65 | for an accepted channel, the gated channel is the whole inverse transform of the masked spectrum: the guard cuts nothing |
| SpectralGate.GateBlockDoneIff | clearwave.py:37-65 | the channels of a block all succeed or all fail, as their common frame count decides |
| Crossfade.FadeLength | clearwave.py:68 | `int(N * 0.5)` is `N / 2` rounded down |
| Crossfade.Linspace | clearwave.py:69-70 | a ramp of `num` values |
| Crossfade.CrossfadeChannel | clearwave.py:73-74 | the crossfaded channel is as long as the gated channel |
| Crossfade.CrossfadeBlock | clearwave.py:73-74 | the crossfaded block has the gated block's shape |
| Crossfade.RampsAt | clearwave.py:69-70 | ramp value `k` rises as `k/(l-1)` and falls as `1 - k/(l-1)`; at every frame the two add up to one and lie in [0, 1] |
| Crossfade.RampEnds | clearwave.py:69-70 | both ramps start and end exactly at 0 and 1 |
| Crossfade.CrossfadeKeepsTail | clearwave.py:68-74 | every frame at or after `fade_len`, in every channel, is the gated frame unchanged |
| Crossfade.CrossfadeRamp | clearwave.py:68-74 | frame `i < fade_len` is `g[i] * i/(l-1) + prev[N-l+i] * (1 - i/(l-1))` |
| Crossfade.CrossfadeFromSilence | clearwave.py:68-74 | against a silent previous channel (the state of lines 33-34 on a first block) the fade is a pure fade-in: `g[i] * i/(l-1)` inside the fade, `g[i]` after it |
| Crossfade.CrossfadeBlockFromSilence | clearwave.py:68-74 | the same fade-in for every channel of a block crossfaded against silence |
| Crossfade.CrossfadeSingleFrame | clearwave.py:68-74 | a one-frame fade replaces the first frame by the last frame of the previous block |
| Crossfade.CrossfadeEnds | clearwave.py:68-74 | the fade starts on frame `N - l` of the previous block and ends on the gated block |
| Crossfade.BoundaryAfterTwoBlocks | clearwave.py:68-77 | across two blocks the second starts with frame `N - l` of the first gated block, and the step at the boundary vanishes when that frame equals the first block's last frame |
| Normalizer.ChannelPeak | clearwave.py:80 | a channel's peak is non-negative |
| Normalizer.Peak | clearwave.py:80 | a block's peak is non-negative |
| Normalizer.Normalize | clearwave.py:80-82 | normalising succeeds exactly when the block has a sample (`np.max` of an empty array raises), and keeps the shape |
| Normalizer.ChannelPeakBounds | clearwave.py:80 | no sample of a channel is louder than its peak |
| Normalizer.PeakBounds | clearwave.py:80 | no sample of a block is louder than its peak |
| Normalizer.ChannelPeakAttained | clearwave.py:80 | some sample of a non-empty channel is exactly as loud as its peak |
| Normalizer.PeakOfEmpty | clearwave.py:80 | a block without samples has peak zero |
| Normalizer.PeakAttained | clearwave.py:80 | some sample is exactly as loud as the peak |
| Normalizer.PeakZeroIffSilent | clearwave.py:80-81 | the peak is zero exactly when every sample is zero |
| Normalizer.RescaledSample | clearwave.py:82 | `x / m * 0.9` is `x` times a positive factor, no louder than 0.9, and exactly 0.9 loud when `x` is as loud as the peak |
| Normalizer.NormalizedSampleIsRescaled | clearwave.py:81-82 | a loud block's sample `(ch, i)` becomes `x / peak * 0.9` |
| Normalizer.RescaleKeepsRatiosAndSigns | clearwave.py:82 | rescaling keeps every ratio and every sign |
| Normalizer.NormalizeKeepsRatiosAndSigns | clearwave.py:81-82 | normalising a loud block keeps the ratio of any two samples and the sign of each |
| Normalizer.NormalizeBounds | clearwave.py:80-82 | after normalising no sample is louder than 0.9, and a block that is not silent has a sample exactly 0.9 loud |
| Normalizer.NormalizeSilent | clearwave.py:81 | a silent block comes back unchanged |
| Normalizer.NormalizeIdempotent | clearwave.py:80-82 | normalising twice is normalising once |
| Pipeline.StartState | clearwave.py:33-34 | the block the crossfade starts from has the input's frame count, and without a retained block it is silence of the input's shape |
| Pipeline.Spread | clearwave.py:74 | numpy's broadcast of the retained block over the block's channels: the block itself for the same channel count, its one channel repeated otherwise |
| Pipeline.SpreadFits | clearwave.py:74 | the broadcast retained block has the gated block's shape |
| Pipeline.StageSucceedsIff | clearwave.py:26-89 | the first stage produces a block exactly when the block has a channel and an even number of frames, at least eight, and the retained block's channels broadcast against it |
| Pipeline.StageStateIsCrossfade | clearwave.py:67-85 | on success the retained block is the gated block crossfaded with the broadcast retained block, before normalisation, with the input's shape, and the output is that block normalised |
| Pipeline.StageFailureKeepsState | clearwave.py:33-89 | when the stage raises the output is the input, and for a block with a channel the retained block is what it was before the call (silence on the first block) |
| Pipeline.NoStateIsSilence | clearwave.py:33-34 | having no retained block is the same as retaining silence of the block's shape |
| Pipeline.StageStateKeepsShape | clearwave.py:33-77 | a produced block leaves a retained block of the input's shape, and any block does when the retained block already had it |
| Pipeline.StaleStateSticks | clearwave.py:73-89 | a retained block whose channels neither match nor are one makes the block raise at line 74: the output is the input and the stale block stays the state |
| Pipeline.MonoStateSpreads | clearwave.py:68-77 | a retained single channel is crossfaded into every channel of a wider block, and the new state has the input's shape |
| Pipeline.StageOutputBounded | clearwave.py:79-85 | a produced block has the input's shape and no sample louder than 0.9, and one exactly 0.9 loud unless it is silence |
| Pipeline.FirstBlockFadesIn | clearwave.py:33-77 | the first block of a session (after `__init__` or `stop()`, line 181) is kept as a pure fade-in of the gated block |
| Pipeline.SecondStageAlwaysRaises | clearwave.py:101-110 | the second `try` raises for every block |
| Pipeline.PassThroughAsWritten | clearwave.py:91-136 | as written, the callback emits its input unchanged |
| Pipeline.AsWrittenDiscardsDenoising | clearwave.py:26-136 | on one eight-frame block, the first stage's output differs from the input, yet the callback as written emits the input |
| Devices.FirstVirtualCable | clearwave.py:143-146 | the lowest index whose name contains `BlackHole` or `Soundflower`, or none exactly when no device qualifies |
| Devices.FindInputDevice | clearwave.py:141-146 | the scan with `break` finds that first virtual cable |
| Devices.ContainsInfix | clearwave.py:144 | Python's `in` holds for a pattern wherever it sits in the string |
| Devices.VirtualCableNames | clearwave.py:144 | every name with `BlackHole` or `Soundflower` anywhere in it is a virtual cable, and no name shorter than nine characters is |
| Devices.ChannelCount | clearwave.py:157-158 | the channel count is at most each device's limit and equal to one of them |
| Devices.OutputCandidatesSound | clearwave.py:240-242 | every output candidate is a device of the list with an output channel |
| Devices.OutputCandidatesComplete | clearwave.py:240-242 | every device with an output channel is a candidate |
| Devices.OutputCandidatesOrdered | clearwave.py:240-242 | the candidates keep the order of the device list |
| Devices.OutputCandidatesStep | clearwave.py:240-242 | one more device adds its index exactly when it has an output channel |
| Devices.OutputCandidateIff | clearwave.py:240-242 | a device is offered exactly when it has an output channel |
| Devices.SliderToStrength | clearwave.py:258 | the strength is the slider value divided by 100 |
| Devices.SliderRange | clearwave.py:218-258 | slider values 0..100 (the range set at lines 218-219) give strengths in [0, 1], and different values different strengths |
| Devices.ResolveStreamIff | clearwave.py:141-170 | the stream opens exactly when there is a virtual cable and a valid selected output; it then joins the first virtual cable to that output at 48000 Hz in blocks of 2048, with no more channels than either device has; no virtual cable gives exactly that error |
| Devices.CandidateOutputResolves | clearwave.py:151-158 | an output taken from the candidate list (lines 240-242) is accepted whenever there is a virtual cable |
| Processor.WriteBlock | clearwave.py:85 | after `outdata[:] = block` the buffer's block view is the block |
| Processor.GateChannels | clearwave.py:37-65 | the channel loop succeeds exactly when the gate of the whole block does, and then leaves the gated block |
| Processor.FirstStage | clearwave.py:26-89 | the first stage's new retained block and its output are those of the stage function, and the output has the input's shape |
| Processor.StreamBlocksAreDenoised | clearwave.py:164-170 | every block of 2048 frames the stream delivers is denoised exactly when the retained block fits it |
| Processor.AudioProcessor.constructor | clearwave.py:12-19 | a new processor is stopped, has strength 0.5, no output device and no retained block |
| Processor.AudioProcessor.Callback | clearwave.py:26-89 | the retained block becomes the stage's state and the output buffer the stage's output, or the input when the stage raised |
| Processor.AudioProcessor.CallbackAsWritten | clearwave.py:22-136 | the whole callback as written keeps the first stage's state but writes the input to the output |
| Processor.AudioProcessor.Stop | clearwave.py:179-181 | stopping clears `running` and the retained block |
| Processor.AudioProcessor.Run | clearwave.py:138-177 | `run` resolves the devices as `ResolveStream` does, and stops the processor exactly when that fails |
| Processor.Denoiser.constructor | clearwave.py:184-236 | the window lists the output candidates with the first selected, and its processor is stopped at strength 0.5 |
| Processor.Denoiser.UpdateDeviceInfo | clearwave.py:244-255 | a selected index the device list does not have leads to `show_error`: Start on the button and the processor stopped, with its retained block kept; otherwise nothing changes |
| Processor.Denoiser.PopulateOutputDevices | clearwave.py:238-242 | the list grows by exactly the output candidates, and an empty list gets its first entry selected |
| Processor.Denoiser.UpdateNoiseReduction | clearwave.py:257-258 | the processor's strength becomes the slider value over 100, in [0, 1] |
| Processor.Denoiser.ShowError | clearwave.py:260-263 | an error resets the button to Start and stops the processor |
| Processor.Denoiser.TogglePressed | clearwave.py:265-273 | a stopped processor starts with the selected output and runs exactly when the devices resolve; a running one stops and drops its retained block; the button always names the next action |

## Left out

- The Qt user interface: widgets, layout, window title, the instruction label and the message
  box text. `ShowError` keeps only its effect on the button and on `running`.
- Processor.Denoiser.UpdateDeviceInfo: the label text it formats is left out. The model
  keeps its error path, which calls `show_error`. It is called from the constructor (line 236)
  but is not connected to later changes of the selection (line 235), because the model has
  no selection changes.
- Threading. `QThread.start` is modelled as a synchronous call to `Run` inside
  `TogglePressed`. The model has no concurrent writes to `running` or `noise_reduction`.
- sounddevice. The device list is a parameter. Opening the stream and the `sd.sleep(100)`
  loop (lines 164-173) are left out: `Run` ends with the stream's configuration.
- The `status` argument and every `print`.
- numpy's FFT. It is a pair of functions known only by its length laws, so nothing is proved
  about the values it computes.
- Floating point and the `float32` casts. Samples are `real`, and the model does not round.
- The reshape of a one-dimensional buffer (lines 29-30). The transport always hands the
  callback a frames-by-channels buffer, and `Admissible` states this as a precondition.
- Processor.AudioProcessor.Callback: it requires a retained block with the input's frame
  count. Its channel count may differ. Every stream is opened with blocks of 2048 frames
  (line 169), so a retained block from any session has the frame count of every later block.
- Pipeline.StageFailureKeepsState: the kept state is stated for blocks with at least one
  channel. A block without channels gets through the crossfade, so its state becomes the
  empty block before `np.max` raises; the model computes that too.
- Processor.GateChannels, Processor.FirstStage: the working copy `audio_data` is a block value
  that the loop reassigns, not an array updated in place. The transport's `indata` and
  `outdata` stay arrays.
- Pipeline.SecondStage: it models only where the second `try` raises (a two-dimensional mask
  handed to `np.convolve`), not the numerics of lines 91-132.

## Findings

| source | as written | input that shows it | evidently intended | confidence | as-written member | corrected member |
|---|---|---|---|---|---|---|
| clearwave.py:91-136 | A second copy of the transform runs after the first. Its transform is taken over the whole two-dimensional block, so `np.convolve` at line 108 gets a two-dimensional mask and raises. The `except` at line 136 then copies `indata` over the denoised output. | Any block, for instance one channel `[0, 0, 0, 0, 0, 0, 0, 1]`. The first stage emits no sample louder than 0.9, but the callback emits the input unchanged, with a full-scale sample. | The callback emits the first stage's result: the gated, crossfaded and normalised block, or the input when that stage raises. | not executed | Pipeline.AsWrittenDiscardsDenoising, Pipeline.PassThroughAsWritten, Processor.AudioProcessor.CallbackAsWritten | Processor.AudioProcessor.Callback, Pipeline.StageOutputBounded |
