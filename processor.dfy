/** The two classes of clearwave.py with the state they change: `AudioProcessor` (lines 9-181),
    whose callback transforms the stream block by block, and the part of `AudioDenoiser`
    (lines 183-273) that drives it: the output list, the slider and the Start/Stop button. */
module Processor {
  import opened Outcomes
  import opened Blocks
  import opened SpectralGate
  import opened Crossfade
  import opened Normalizer
  import opened Pipeline
  import opened Devices

  // ---------------------------------------------------------------------------------------
  // Array steps of the callback

  /** `outdata[:] = block` (lines 85, 89 and 136). */
  method WriteBlock(dst: array2<real>, b: Block)
    requires |b| == dst.Length1
    requires forall ch :: 0 <= ch < |b| ==> |b[ch]| == dst.Length0
    modifies dst
    ensures ToChannels(dst) == b
  {
    forall i, ch | 0 <= i < dst.Length0 && 0 <= ch < dst.Length1 {
      dst[i, ch] := b[ch][i];
    }
    ToChannelsOf(dst, b);
  }

  /** Lines 37-65: gate the channels one after the other, each gated channel replacing its
      column of the working copy. The first channel that raises ends the loop; `ok` says
      whether none did. */
  method GateChannels(f: FftPair, x: Block, strength: real) returns (ok: bool, audio: Block)
    requires ValidFft(f)
    ensures ok == GateBlock(f, x, strength).Done?
    ensures ok ==> audio == GateBlock(f, x, strength).value
  {
    GateBlockChannels(f, x, strength);
    audio := x;
    var ch := 0;
    while ch < |audio|
      invariant 0 <= ch <= |audio| == |x|
      invariant forall k :: 0 <= k < ch ==> GateChannel(f, x[k], strength) == Done(audio[k])
      invariant forall k :: ch <= k < |x| ==> audio[k] == x[k]
    {
      var r := GateChannel(f, audio[ch], strength);
      if r.Raised? {
        return false, audio;
      }
      audio := audio[ch := r.value];
      ch := ch + 1;
    }
    ok := true;
  }

  /** Lines 26-89 on the values: start from the retained block, silence when there is none
      (lines 33-34), gate, crossfade, keep the crossfaded block, normalise. `state` is what the
      retained block is afterwards, `out` what the output buffer receives. */
  method FirstStage(f: FftPair, x: Block, prev: Option<Block>, strength: real) returns (state: Block, out: Block)
    requires ValidFft(f) && Admissible(x, prev)
    ensures var r := DenoiseStage(f, x, prev, strength);
      state == r.state && out == Emitted(x, r)
    ensures SameShape(out, x)
  {
    var p := if prev.None? then ZerosLike(x) else prev.value;
    if prev.None? {
      NoStateIsSilence(f, x, strength);
    }
    var ok, audio := GateChannels(f, x, strength);
    GateBlockChannels(f, x, strength);
    if !ok || !ChannelsBroadcast(p, |audio|) {
      return p, x;
    }
    SpreadFits(x, p, audio);
    audio := CrossfadeBlock(audio, Spread(p, |audio|));
    state := audio;
    var y := Normalize(audio);
    out := if y.Done? then y.value else x;
  }

  /** Every block the stream delivers (line 169: 2048 frames) is denoised, unless the retained
      block is a stale one whose channels do not broadcast. */
  lemma StreamBlocksAreDenoised(f: FftPair, x: Block, prev: Option<Block>, strength: real)
    requires ValidFft(f) && Admissible(x, prev) && |x| > 0 && Frames(x) == BlockSize
    ensures DenoiseStage(f, x, prev, strength).output.Done? <==> FitsState(x, prev)
  {
    StageSucceedsIff(f, x, prev, strength);
  }

  // ---------------------------------------------------------------------------------------
  // The processor

  class AudioProcessor {
    /** Whether the stream is meant to keep running. */
    var running: bool
    /** The gate strength read by every call of the callback. */
    var noiseReduction: real
    /** The index of the selected output device. */
    var outputDevice: Option<nat>
    /** The crossfaded block of the last call, kept for the next one. */
    var prevBuffer: Option<Block>

    /** Lines 12-19. */
    constructor()
      ensures !running && noiseReduction == 0.5 && outputDevice.None? && prevBuffer.None?
    {
      running := false;
      noiseReduction := 0.5;
      outputDevice := None;
      prevBuffer := None;
    }

    /** The callback's first `try` (lines 26-89): the retained block becomes the stage's state
        and the output the stage's block, or the input when the stage raised. */
    method Callback(f: FftPair, indata: array2<real>, outdata: array2<real>)
      requires ValidFft(f)
      requires indata != outdata
      requires outdata.Length0 == indata.Length0 && outdata.Length1 == indata.Length1
      requires Admissible(ToChannels(indata), prevBuffer)
      modifies this`prevBuffer, outdata
      ensures var r := DenoiseStage(f, ToChannels(indata), old(prevBuffer), noiseReduction);
        prevBuffer == Some(r.state) && ToChannels(outdata) == Emitted(ToChannels(indata), r)
    {
      var x := ToChannels(indata);
      var state, out := FirstStage(f, x, prevBuffer, noiseReduction);
      prevBuffer := Some(state);
      WriteBlock(outdata, out);
      assert ToChannels(indata) == x;
    }

    /** The whole callback as written: the first `try`, then the second `try` (lines 91-136),
        which raises before it changes the retained block and so writes the input back. */
    method CallbackAsWritten(f: FftPair, indata: array2<real>, outdata: array2<real>)
      requires ValidFft(f)
      requires indata != outdata
      requires outdata.Length0 == indata.Length0 && outdata.Length1 == indata.Length1
      requires Admissible(ToChannels(indata), prevBuffer)
      modifies this`prevBuffer, outdata
      ensures prevBuffer == Some(DenoiseStage(f, ToChannels(indata), old(prevBuffer), noiseReduction).state)
      ensures ToChannels(outdata) == EmittedAsWritten(f, ToChannels(indata), old(prevBuffer), noiseReduction)
      ensures ToChannels(outdata) == ToChannels(indata)
    {
      Callback(f, indata, outdata);
      match SecondStage(ToChannels(indata))
      case Raised(_) =>
        WriteBlock(outdata, ToChannels(indata));
      case Done(_) =>
        assert false;
    }

    /** Lines 179-181: the stream winds down and the next start fades in from silence. */
    method Stop()
      modifies this`running, this`prevBuffer
      ensures !running && prevBuffer.None?
    {
      running := false;
      prevBuffer := None;
    }

    /** Lines 138-177 up to the opening of the stream: resolve the devices; on a failure the
        error goes to the window and the processor stops running. */
    method Run(devices: seq<Device>) returns (r: Outcome<StreamConfig>)
      modifies this`running
      ensures r == ResolveStream(devices, outputDevice)
      ensures running == (old(running) && r.Done?)
    {
      var input := FindInputDevice(devices);
      if input.None? {
        running := false;
        return Raised(NoVirtualCable);
      }
      if outputDevice.None? {
        running := false;
        return Raised(NoOutputDevice);
      }
      var output := outputDevice.value;
      if output >= |devices| {
        running := false;
        return Raised(UnknownDevice);
      }
      var channels := ChannelCount(devices[input.value].maxInputChannels, devices[output].maxOutputChannels);
      r := Done(StreamConfig(input.value, output, channels, SampleRate, BlockSize));
    }
  }

  // ---------------------------------------------------------------------------------------
  // The window

  /** The text of the toggle button. */
  datatype ButtonLabel = StartLabel | StopLabel

  class Denoiser {
    const processor: AudioProcessor
    /** The device index stored with every entry of the output list, in list order. */
    var comboItems: seq<nat>
    /** The selected entry of the output list, -1 while the list is empty. */
    var comboIndex: int
    var button: ButtonLabel

    /** The button names the action it will take: Stop while the processor runs. */
    predicate Valid()
      reads this, processor
    {
      -1 <= comboIndex < |comboItems| &&
      (comboIndex == -1 <==> comboItems == []) &&
      button == (if processor.running then StopLabel else StartLabel)
    }

    /** `currentData()`: the device index of the selected entry, `None` for an empty list. */
    function CurrentData(): Option<nat>
      reads this
    {
      if 0 <= comboIndex < |comboItems| then Some(comboItems[comboIndex]) else None
    }

    /** Lines 184-236 without the widgets' layout: the output list holds the candidates, the
        first of them selected; the slider is set before it is connected, so the processor
        keeps its own strength of 0.5. */
    constructor(devices: seq<Device>)
      ensures Valid() && fresh(processor)
      ensures comboItems == OutputCandidates(devices)
      ensures CurrentData() == if comboItems == [] then None else Some(comboItems[0])
      ensures !processor.running && processor.noiseReduction == 0.5
      ensures processor.outputDevice.None? && processor.prevBuffer.None?
    {
      comboItems := [];
      comboIndex := -1;
      button := StartLabel;
      processor := new AudioProcessor();
      new;
      PopulateOutputDevices(devices);
      UpdateDeviceInfo(devices);
    }

    /** Lines 238-242: add every device with an output channel, selecting the first entry of an
        empty list as Qt does. */
    method PopulateOutputDevices(devices: seq<Device>)
      requires -1 <= comboIndex < |comboItems| && (comboIndex == -1 <==> comboItems == [])
      modifies this`comboItems, this`comboIndex
      ensures comboItems == old(comboItems) + OutputCandidates(devices)
      ensures -1 <= comboIndex < |comboItems| && (comboIndex == -1 <==> comboItems == [])
      ensures old(comboItems) != [] ==> comboIndex == old(comboIndex)
      ensures old(comboItems) == [] && comboItems != [] ==> comboIndex == 0
    {
      var i := 0;
      while i < |devices|
        invariant 0 <= i <= |devices|
        invariant comboItems == old(comboItems) + OutputCandidates(devices[..i])
        invariant -1 <= comboIndex < |comboItems| && (comboIndex == -1 <==> comboItems == [])
        invariant old(comboItems) != [] ==> comboIndex == old(comboIndex)
        invariant old(comboItems) == [] && comboItems != [] ==> comboIndex == 0
      {
        OutputCandidatesStep(devices, i);
        if devices[i].maxOutputChannels > 0 {
          comboItems := comboItems + [i];
          if comboIndex == -1 {
            comboIndex := 0;
          }
        }
        i := i + 1;
      }
      assert devices[..i] == devices;
    }

    /** Lines 244-255 without the label text: looking up the selected device raises when the
        device list has no such index, and the error then goes through `ShowError`, which stops
        the processor without clearing its retained block. */
    method UpdateDeviceInfo(devices: seq<Device>)
      requires Valid()
      modifies this`button, processor`running
      ensures Valid()
      ensures var id := CurrentData();
        if id.Some? && id.value >= |devices| then button == StartLabel && !processor.running
        else button == old(button) && processor.running == old(processor.running)
      ensures processor.prevBuffer == old(processor.prevBuffer)
    {
      var id := CurrentData();
      if id.Some? && id.value >= |devices| {
        ShowError();
      }
    }

    /** Lines 257-258, for a position of the slider's range. */
    method UpdateNoiseReduction(value: int)
      requires 0 <= value <= 100
      modifies processor`noiseReduction
      ensures processor.noiseReduction == SliderToStrength(value)
      ensures 0.0 <= processor.noiseReduction <= 1.0
    {
      processor.noiseReduction := value as real / 100.0;
      SliderRange(value, value);
    }

    /** Lines 260-263 without the message box. */
    method ShowError()
      modifies this`button, processor`running
      ensures button == StartLabel && !processor.running
    {
      button := StartLabel;
      processor.running := false;
    }

    /** Lines 265-273: start with the selected output, or stop. A start whose devices do not
        resolve comes back through `ShowError`. */
    method TogglePressed(devices: seq<Device>)
      requires Valid()
      modifies this`button, processor`running, processor`outputDevice, processor`prevBuffer
      ensures Valid()
      ensures old(processor.running) ==> !processor.running && processor.prevBuffer.None?
      ensures old(processor.running) ==> processor.outputDevice == old(processor.outputDevice)
      ensures !old(processor.running) ==> processor.outputDevice == CurrentData()
      ensures !old(processor.running) ==>
        (processor.running <==> ResolveStream(devices, CurrentData()).Done?)
      ensures !old(processor.running) ==> processor.prevBuffer == old(processor.prevBuffer)
    {
      if !processor.running {
        processor.outputDevice := CurrentData();
        processor.running := true;
        var r := processor.Run(devices);
        button := StopLabel;
        if r.Raised? {
          ShowError();
        }
      } else {
        processor.Stop();
        button := StartLabel;
      }
    }
  }
}
