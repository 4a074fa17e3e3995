/** The device and parameter rules of clearwave.py: which input device is used (lines 143-149),
    which devices are offered as outputs (lines 238-242), how many channels the stream opens
    (lines 151-158) and how the slider sets the gate strength (lines 257-258). */
module Devices {
  import opened Outcomes

  /** One entry of the device list: its name and its input and output channel counts. */
  datatype Device = Device(name: string, maxInputChannels: nat, maxOutputChannels: nat)

  /** The stream's fixed parameters: `samplerate=48000` and `blocksize=self.buffer_size`. */
  const SampleRate: nat := 48000
  const BlockSize: nat := 2048

  /** What `sd.Stream` is opened with at lines 165-170. */
  datatype StreamConfig = StreamConfig(input: nat, output: nat, channels: nat, sampleRate: nat, blockSize: nat)

  // ---------------------------------------------------------------------------------------
  // The input device

  /** Python's `pat in s` on strings: `pat` occurs as a contiguous piece of `s`. */
  predicate Contains(s: string, pat: string) {
    exists k :: 0 <= k <= |s| - |pat| && OccursAt(s, pat, k)
  }

  /** `pat` starts at position `k` of `s`. */
  predicate OccursAt(s: string, pat: string, k: nat) {
    k + |pat| <= |s| && s[k..k + |pat|] == pat
  }

  /** A loopback driver the system audio can be routed into. */
  predicate IsVirtualCable(d: Device) {
    Contains(d.name, "BlackHole") || Contains(d.name, "Soundflower")
  }

  /** The index of the first virtual cable in the list, if there is one. */
  function FirstVirtualCable(devices: seq<Device>): (r: Option<nat>)
    ensures r.Some? ==> r.value < |devices| && IsVirtualCable(devices[r.value])
    ensures r.Some? ==> forall j :: 0 <= j < r.value ==> !IsVirtualCable(devices[j])
    ensures r.None? <==> forall j :: 0 <= j < |devices| ==> !IsVirtualCable(devices[j])
  {
    if devices == [] then None
    else if IsVirtualCable(devices[0]) then Some(0)
    else
      match FirstVirtualCable(devices[1..])
      case None => None
      case Some(k) => Some(k + 1)
  }

  /** Lines 141-146: scan the list in order and stop at the first virtual cable. */
  method FindInputDevice(devices: seq<Device>) returns (r: Option<nat>)
    ensures r == FirstVirtualCable(devices)
  {
    r := None;
    var i := 0;
    while i < |devices|
      invariant 0 <= i <= |devices|
      invariant forall j :: 0 <= j < i ==> !IsVirtualCable(devices[j])
    {
      if IsVirtualCable(devices[i]) {
        r := Some(i);
        break;
      }
      i := i + 1;
    }
  }

  /** `pat in s` holds wherever `pat` sits in `s`. */
  lemma ContainsInfix(pre: string, pat: string, post: string)
    ensures Contains(pre + pat + post, pat)
  {
    var s := pre + pat + post;
    assert s[|pre|..|pre| + |pat|] == pat;
    assert OccursAt(s, pat, |pre|);
  }

  /** Every name with `BlackHole` or `Soundflower` anywhere in it is a virtual cable, whatever
      its channel counts; a name shorter than both words never is. */
  lemma VirtualCableNames(pre: string, post: string, inputs: nat, outputs: nat)
    ensures IsVirtualCable(Device(pre + "BlackHole" + post, inputs, outputs))
    ensures IsVirtualCable(Device(pre + "Soundflower" + post, inputs, outputs))
    ensures |pre| < 9 ==> !IsVirtualCable(Device(pre, inputs, outputs))
  {
    ContainsInfix(pre, "BlackHole", post);
    ContainsInfix(pre, "Soundflower", post);
  }

  // ---------------------------------------------------------------------------------------
  // The channel count and the output candidates

  /** Line 157: `min(max_input_channels, max_output_channels)`. */
  function ChannelCount(inputs: nat, outputs: nat): (c: nat)
    ensures c <= inputs && c <= outputs
    ensures c == inputs || c == outputs
  {
    if inputs < outputs then inputs else outputs
  }

  /** Lines 239-242: the indices of the devices that have an output channel, in list order. */
  function OutputCandidates(devices: seq<Device>): seq<nat> {
    if devices == [] then []
    else
      var n := |devices| - 1;
      OutputCandidates(devices[..n]) + if devices[n].maxOutputChannels > 0 then [n] else []
  }

  /** Every candidate is a device of the list with an output channel. */
  lemma {:induction false} OutputCandidatesSound(devices: seq<Device>)
    ensures forall k :: 0 <= k < |OutputCandidates(devices)| ==>
      OutputCandidates(devices)[k] < |devices| && devices[OutputCandidates(devices)[k]].maxOutputChannels > 0
  {
    if devices != [] {
      var n := |devices| - 1;
      var front := OutputCandidates(devices[..n]);
      OutputCandidatesSound(devices[..n]);
      assert forall k :: 0 <= k < |front| ==> devices[..n][front[k]] == devices[front[k]];
    }
  }

  /** Every device with an output channel is a candidate. */
  lemma {:induction false} OutputCandidatesComplete(devices: seq<Device>)
    ensures forall i :: 0 <= i < |devices| && devices[i].maxOutputChannels > 0 ==> i in OutputCandidates(devices)
  {
    if devices != [] {
      var n := |devices| - 1;
      OutputCandidatesComplete(devices[..n]);
      assert forall i :: 0 <= i < n ==> devices[..n][i] == devices[i];
    }
  }

  /** The candidates keep the order of the list. */
  lemma {:induction false} OutputCandidatesOrdered(devices: seq<Device>)
    ensures forall k, k' :: 0 <= k < k' < |OutputCandidates(devices)| ==>
      OutputCandidates(devices)[k] < OutputCandidates(devices)[k']
  {
    if devices != [] {
      var n := |devices| - 1;
      OutputCandidatesOrdered(devices[..n]);
      OutputCandidatesSound(devices[..n]);
    }
  }

  /** The candidates of a longer list extend those of its prefix by the new device, when it
      has an output channel. */
  lemma OutputCandidatesStep(devices: seq<Device>, i: nat)
    requires i < |devices|
    ensures OutputCandidates(devices[..i + 1]) ==
      OutputCandidates(devices[..i]) + if devices[i].maxOutputChannels > 0 then [i] else []
  {
    assert devices[..i + 1][..i] == devices[..i];
  }

  /** A device is offered exactly when it has an output channel. */
  lemma OutputCandidateIff(devices: seq<Device>, i: nat)
    requires i < |devices|
    ensures i in OutputCandidates(devices) <==> devices[i].maxOutputChannels > 0
  {
    OutputCandidatesSound(devices);
    OutputCandidatesComplete(devices);
    if i in OutputCandidates(devices) {
      var k :| 0 <= k < |OutputCandidates(devices)| && OutputCandidates(devices)[k] == i;
    }
  }

  // ---------------------------------------------------------------------------------------
  // The slider

  /** Line 258: the slider's integer position divided by 100. */
  function SliderToStrength(value: int): (s: real)
    ensures s * 100.0 == value as real
  {
    value as real / 100.0
  }

  /** The slider's range 0..100 gives strengths from 0 to 1, and every position its own
      strength. */
  lemma SliderRange(value: int, value': int)
    requires 0 <= value <= 100
    ensures 0.0 <= SliderToStrength(value) <= 1.0
    ensures SliderToStrength(value) == SliderToStrength(value') ==> value == value'
  {
  }

  // ---------------------------------------------------------------------------------------
  // The stream

  /** Lines 141-158: the input device, the selected output device and the channel count, or
      the first check that fails. Asking the device list for an index it does not have raises. */
  function ResolveStream(devices: seq<Device>, output: Option<nat>): Outcome<StreamConfig> {
    match FirstVirtualCable(devices)
    case None => Raised(NoVirtualCable)
    case Some(input) =>
      if output.None? then Raised(NoOutputDevice)
      else if output.value >= |devices| then Raised(UnknownDevice)
      else
        var channels := ChannelCount(devices[input].maxInputChannels, devices[output.value].maxOutputChannels);
        Done(StreamConfig(input, output.value, channels, SampleRate, BlockSize))
  }

  /** The stream opens exactly when there is a virtual cable and a valid output is selected; it
      then connects the first virtual cable to that output, with as many channels as both
      devices have. */
  lemma ResolveStreamIff(devices: seq<Device>, output: Option<nat>)
    ensures ResolveStream(devices, output).Done? <==>
      (exists j :: 0 <= j < |devices| && IsVirtualCable(devices[j])) &&
      output.Some? && output.value < |devices|
    ensures var r := ResolveStream(devices, output);
      r.Done? ==>
        r.value.input == FirstVirtualCable(devices).value && r.value.output == output.value &&
        r.value.channels <= devices[r.value.input].maxInputChannels &&
        r.value.channels <= devices[r.value.output].maxOutputChannels &&
        r.value.sampleRate == 48000 && r.value.blockSize == 2048
    ensures ResolveStream(devices, output) == Raised(NoVirtualCable) <==>
      forall j :: 0 <= j < |devices| ==> !IsVirtualCable(devices[j])
  {
    if exists j :: 0 <= j < |devices| && IsVirtualCable(devices[j]) {
      var j :| 0 <= j < |devices| && IsVirtualCable(devices[j]);
      assert FirstVirtualCable(devices).Some?;
    }
  }

  /** An output picked from the candidates is accepted whenever there is a virtual cable, and
      the stream then has a channel unless the virtual cable has no input channel. */
  lemma CandidateOutputResolves(devices: seq<Device>, k: nat)
    requires k < |OutputCandidates(devices)|
    requires exists j :: 0 <= j < |devices| && IsVirtualCable(devices[j])
    ensures var r := ResolveStream(devices, Some(OutputCandidates(devices)[k]));
      r.Done? && (r.value.channels > 0 <==> devices[r.value.input].maxInputChannels > 0)
  {
    OutputCandidatesSound(devices);
    ResolveStreamIff(devices, Some(OutputCandidates(devices)[k]));
  }
}
