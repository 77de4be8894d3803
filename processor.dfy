/**
 * The `PCSpeakerPrecisionProcessor` audio worklet (src/audio-worklet.ts) as a
 * class: its constructor sets the step length and the per-channel carried
 * values, and `Process` fills the output buffers in place, step by step, as
 * the source's nested loops and `fill` calls do. Each method is proved
 * against the chunk specification of module Quantizer.
 */
module Processor {
  import opened Wrappers
  import opened Quantizer

  /** `processorOptions` of the node options: only `updateHz` is read. */
  datatype ProcessorOptions = ProcessorOptions(updateHz: Option<real>)

  /** The node options the constructor destructures. */
  datatype NodeOptions = NodeOptions(
    processorOptions: Option<ProcessorOptions>,
    numberOfInputs: Option<nat>,
    channelCount: Option<nat>)

  /** `options = {}` */
  const NoOptions := NodeOptions(None, None, None)

  /** `updateHz = 64`, also when `processorOptions` itself is missing. */
  function UpdateHz(options: NodeOptions): real {
    match options.processorOptions
    case None => 64.0
    case Some(p) => p.updateHz.GetOr(64.0)
  }

  /** `numberOfInputs = 1` */
  function NumberOfInputs(options: NodeOptions): nat { options.numberOfInputs.GetOr(1) }

  /** `channelCount = 1` */
  function ChannelCount(options: NodeOptions): nat { options.channelCount.GetOr(1) }

  /** `Math.round(sampleRate / updateHz)`: samples per step. */
  function RepeatSamples(options: NodeOptions, sampleRate: real): (n: int)
    requires UpdateHz(options) != 0.0
    ensures n as real - 0.5 <= sampleRate / UpdateHz(options) < n as real + 0.5
  {
    Round(sampleRate / UpdateHz(options))
  }

  /** With the default 64 steps per second, a step is 750 samples at 48 kHz and 689 at 44.1 kHz. */
  lemma DefaultStepLength()
    ensures RepeatSamples(NoOptions, 48000.0) == 750
    ensures RepeatSamples(NoOptions, 44100.0) == 689
  {
    assert 48000.0 / 64.0 == 750.0;
    assert 44100.0 / 64.0 == 689.0625;
  }

  /** One zero-filled `Float32Array(channelCount)` per input. */
  function InitialPrevValues(options: NodeOptions): (p: seq<seq<real>>)
    ensures |p| == NumberOfInputs(options)
    ensures forall i :: 0 <= i < |p| ==> |p[i]| == ChannelCount(options)
    ensures forall i, j :: 0 <= i < |p| && 0 <= j < |p[i]| ==> p[i][j] == 0.0
  {
    seq(NumberOfInputs(options), _ => seq(ChannelCount(options), _ => 0.0))
  }

  /** The carried values of one input after a call: each processed channel keeps its last output sample. */
  function NextRow(row: seq<real>, input: seq<seq<real>>, currentFrame: nat, r: nat): (next: seq<real>)
    requires r >= 1
    requires forall j :: 0 <= j < |input| ==> |input[j]| >= 1 && AllPlayable(input[j])
    ensures |next| == |row|
  {
    seq(|row|, j requires 0 <= j < |row| =>
      if j < |input| then Last(ChunkOutput(input[j], currentFrame, r, row[j])) else row[j])
  }

  /** The carried values of every input after a call. */
  function NextPrevValues(prev: seq<seq<real>>, inputs: seq<seq<seq<real>>>, currentFrame: nat, r: nat): (next: seq<seq<real>>)
    requires r >= 1 && ChannelsPlayable(inputs)
    ensures |next| == |prev|
    ensures forall i :: 0 <= i < |prev| ==> |next[i]| == |prev[i]|
  {
    seq(|prev|, i requires 0 <= i < |prev| =>
      if i < |inputs| then NextRow(prev[i], inputs[i], currentFrame, r) else prev[i])
  }

  /** Every input channel holds at least one sample, all of them playable. */
  predicate ChannelsPlayable(inputs: seq<seq<seq<real>>>) {
    forall i, j :: 0 <= i < |inputs| && 0 <= j < |inputs[i]| ==> |inputs[i][j]| >= 1 && AllPlayable(inputs[i][j])
  }

  /** Each input channel has an output buffer of its length and a carried value. */
  predicate Fits(inputs: seq<seq<seq<real>>>, outputs: seq<seq<array<real>>>, prev: seq<seq<real>>) {
    && |inputs| <= |outputs|
    && |inputs| <= |prev|
    && (forall i :: 0 <= i < |inputs| ==> |inputs[i]| <= |outputs[i]| && |inputs[i]| <= |prev[i]|)
    && (forall i, j :: 0 <= i < |inputs| && 0 <= j < |inputs[i]| ==> outputs[i][j].Length == |inputs[i][j]|)
  }

  /** No two output channels share a buffer. */
  predicate Distinct(outputs: seq<seq<array<real>>>) {
    forall i, j, i', j' ::
      0 <= i < |outputs| && 0 <= j < |outputs[i]| && 0 <= i' < |outputs| && 0 <= j' < |outputs[i']| && (i, j) != (i', j')
      ==> outputs[i][j] != outputs[i'][j']
  }

  function Buffers(outputs: seq<seq<array<real>>>): set<array<real>> {
    set i, j | 0 <= i < |outputs| && 0 <= j < |outputs[i]| :: outputs[i][j]
  }

  function RowBuffers(outs: seq<array<real>>): set<array<real>> {
    set j | 0 <= j < |outs| :: outs[j]
  }

  class PitQuantizer {
    var repeatSamples: int
    var prevValues: seq<seq<real>>

    /** `new PCSpeakerPrecisionProcessor(options)` in a context running at `sampleRate`. */
    constructor(options: NodeOptions, sampleRate: real)
      requires UpdateHz(options) != 0.0
      ensures repeatSamples == RepeatSamples(options, sampleRate)
      ensures prevValues == InitialPrevValues(options)
    {
      repeatSamples := RepeatSamples(options, sampleRate);
      prevValues := InitialPrevValues(options);
    }

    /**
     * `process(inputs, outputs)` at frame `currentFrame`: every input
     * channel's output buffer receives `ChunkOutput` of the channel, the
     * carried values of the processed channels become their last output
     * samples, nothing else changes, and the processor stays alive.
     */
    method Process(inputs: seq<seq<seq<real>>>, outputs: seq<seq<array<real>>>, currentFrame: nat) returns (keepAlive: bool)
      requires repeatSamples >= 1
      requires ChannelsPlayable(inputs) && Fits(inputs, outputs, prevValues) && Distinct(outputs)
      modifies this, Buffers(outputs)
      ensures repeatSamples == old(repeatSamples)
      ensures prevValues == NextPrevValues(old(prevValues), inputs, currentFrame, repeatSamples)
      ensures forall i, j :: 0 <= i < |inputs| && 0 <= j < |inputs[i]| ==>
        outputs[i][j][..] == ChunkOutput(inputs[i][j], currentFrame, repeatSamples, old(prevValues)[i][j])
      ensures forall i, j :: 0 <= i < |outputs| && 0 <= j < |outputs[i]| && !(i < |inputs| && j < |inputs[i]|) ==>
        outputs[i][j][..] == old(outputs[i][j][..])
      ensures keepAlive
    {
      ghost var prev0 := prevValues;
      var r := repeatSamples;
      for i := 0 to |inputs|
        invariant repeatSamples == r
        invariant |prevValues| == |prev0|
        invariant forall i' :: 0 <= i' < |prev0| ==>
          prevValues[i'] == if i' < i then NextRow(prev0[i'], inputs[i'], currentFrame, r) else prev0[i']
        invariant forall i', j :: 0 <= i' < i && 0 <= j < |inputs[i']| ==>
          outputs[i'][j][..] == ChunkOutput(inputs[i'][j], currentFrame, r, prev0[i'][j])
        invariant forall i', j :: 0 <= i' < |outputs| && 0 <= j < |outputs[i']| && !(i' < i && j < |inputs[i']|) ==>
          outputs[i'][j][..] == old(outputs[i'][j][..])
      {
        assert RowBuffers(outputs[i]) <= Buffers(outputs);
        var row := ProcessInput(inputs[i], outputs[i], currentFrame, r, prevValues[i]);
        prevValues := prevValues[i := row];
      }
      keepAlive := true;
    }
  }

  /** The channel loop for input `i`: fills each channel's buffer and returns the input's new carried values. */
  method ProcessInput(input: seq<seq<real>>, outs: seq<array<real>>, currentFrame: nat, r: nat, row: seq<real>)
    returns (next: seq<real>)
    requires r >= 1
    requires forall j :: 0 <= j < |input| ==> |input[j]| >= 1 && AllPlayable(input[j])
    requires |input| <= |outs| && |input| <= |row|
    requires forall j :: 0 <= j < |input| ==> outs[j].Length == |input[j]|
    requires forall j, j' :: 0 <= j < j' < |outs| ==> outs[j] != outs[j']
    modifies RowBuffers(outs)
    ensures next == NextRow(row, input, currentFrame, r)
    ensures forall j :: 0 <= j < |input| ==> outs[j][..] == ChunkOutput(input[j], currentFrame, r, row[j])
    ensures forall j :: |input| <= j < |outs| ==> outs[j][..] == old(outs[j][..])
  {
    next := row;
    for j := 0 to |input|
      invariant |next| == |row|
      invariant forall j' :: 0 <= j' < |row| ==>
        next[j'] == if j' < j then Last(ChunkOutput(input[j'], currentFrame, r, row[j'])) else row[j']
      invariant forall j' :: 0 <= j' < j ==> outs[j'][..] == ChunkOutput(input[j'], currentFrame, r, row[j'])
      invariant forall j' :: j <= j' < |outs| ==> outs[j'][..] == old(outs[j'][..])
    {
      ProcessChannel(input[j], outs[j], currentFrame, r, row[j]);
      next := next[j := outs[j][outs[j].Length - 1]];
    }
  }

  /** The repeat-index loop for one channel: fills each step's window with the step's value. */
  method ProcessChannel(channel: seq<real>, out: array<real>, currentFrame: nat, r: nat, prev: real)
    requires r >= 1 && AllPlayable(channel) && out.Length == |channel|
    modifies out
    ensures out[..] == ChunkOutput(channel, currentFrame, r, prev)
  {
    var firstIndex := currentFrame;
    var lastIndex := currentFrame + |channel| - 1;
    var firstRepeatIndex := firstIndex / r;
    var lastRepeatIndex := CeilDiv(lastIndex + 1, r) - 1;
    assert lastRepeatIndex == LastStep(currentFrame, |channel|, r);
    ghost var spec := ChunkOutput(channel, currentFrame, r, prev);
    var q := firstRepeatIndex;
    forall k | 0 <= k < |channel| ensures (currentFrame + k) / r >= q || out[k] == spec[k] {
      StepAtMostLast(currentFrame, |channel|, r, k);
    }
    while q <= lastRepeatIndex
      invariant q >= firstRepeatIndex
      invariant forall k :: 0 <= k < |channel| && (currentFrame + k) / r < q ==> out[k] == spec[k]
      decreases lastRepeatIndex + 1 - q
    {
      OnlyFirstStepStartsEarly(currentFrame, |channel|, r, q);
      var value := if q * r >= firstIndex then Quantize(channel[q * r - firstIndex]) else prev;
      var localStart := LocalStart(q, firstIndex, r);
      var localEnd := LocalEnd(q, firstIndex, |channel|, r);
      assert value == StepValue(channel, currentFrame, r, q, prev);
      Fill(out, value, localStart, localEnd);
      forall k | 0 <= k < |channel| && (currentFrame + k) / r <= q
        ensures out[k] == spec[k]
      {
        FilledStep(channel, currentFrame, r, prev, q, k);
      }
      q := q + 1;
    }
    forall k | 0 <= k < |channel| ensures out[k] == spec[k] {
      StepAtMostLast(currentFrame, |channel|, r, k);
    }
  }

  /** `array.fill(value, start, end)` for `0 <= start` and `end <= array.length`; nothing happens when `end <= start`. */
  method Fill(a: array<real>, value: real, start: int, end: int)
    requires 0 <= start && end <= a.Length
    modifies a
    ensures forall k :: 0 <= k < a.Length ==> a[k] == if start <= k < end then value else old(a[k])
  {
    if start < end {
      for k := start to end
        invariant forall m :: 0 <= m < a.Length ==> a[m] == if start <= m < k then value else old(a[m])
      {
        a[k] := value;
      }
    }
  }
}
