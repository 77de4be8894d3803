# dostune core in Dafny

dostune is a browser composer and player for tunes in the sound of an
IBM-PC speaker: a square wave whose pitch comes from an 8253 PIT counter
clocked at 1193182 Hz. This project models its two core pieces and proves
properties of them.

- **The tune interpreter** (src/beeper.ts):
  - the `BeeperCommand` tree, held as `Tune.Command`;
  - note-to-pitch mapping `noteHz`;
  - duration calculator `getCommandDuration`;
  - scheduler `playCommands`. It walks the tree with a single time cursor and
    asks a `Beeper` sink for tones and vibrato envelopes.
  - the buffer-building part of the sink's `pitchBend`.
- **The PIT frequency quantizer** (src/audio-worklet.ts): the
  `PCSpeakerPrecisionProcessor` audio worklet.
  - It holds its input frequency for steps of `repeatSamples` samples.
  - It replaces each step's value with `1193182 / round(1193182 / x)`, the
    frequency an integer counter reload can produce.
  - It carries the value of a step that straddles two chunks in the
    per-channel `prevValues` field.

Modules:

- `Wrappers` (wrappers.dfy): `Option` and `Result`.
- `Tune` (commands.dfy): the command tree, `noteHz`, `getCommandDuration` as
  written (`CommandDuration`), and the corrected seconds-based duration
  (`CommandSeconds`).
- `Schedule` (schedule.dfy):
  - `Play` is the specification of `playCommands`: the events scheduled, in
    order, and the end time or the error thrown.
  - `Beeper` is a sink class that records the requests it gets.
  - `PlayCommands` / `PlayCommandAt` / `PlayNoteAt` is the imperative walk,
    proved to issue exactly `Play`'s events.
- `BendCurve` (bend_curve.dfy):
  - the `pitchBend` curve buffer, filled in place by a loop;
  - proved equal to the specification `Curve`.
- `Quantizer` (quantizer.dfy):
  - `ChunkOutput`, the samples one `process` call writes into one channel;
  - the fill-window lemmas;
  - chunk splitting and the reference whole-stream behaviour.
- `Processor` (processor.dfy):
  - the worklet as a class with the fields `repeatSamples` and `prevValues`;
  - its constructor;
  - `Process`, whose nested loops `fill` output arrays in place. It is proved
    against `ChunkOutput` and the new `prevValues`.

Modelling choices:

- Numbers are `real`s. Durations are exact ratios.
- An equal-tempered pitch is kept symbolic, as its semitone offset from A4
  (`Tune.Frequency.EqualTempered`). `2^(n/12)` is irrational for most `n`.
  `Tune.ExactHz` gives the value in Hz where it is rational (whole octaves
  from A4).
- `bpm` of 0 makes the source divide by zero. Note and rest durations
  therefore require a non-zero tempo (`DurationDefined`, `PlayDefined`).
- The quantizer takes input samples in `(-2 * 1193182, 2 * 1193182]`
  (`Playable`). That is where its result is finite: a positive sample gives a
  positive frequency, a negative sample a negative one, and a zero sample
  gives `1193182 / Math.round(Infinity)`, which is 0.
- The audio host's globals `sampleRate` and `currentFrame` are parameters.
  The host's `inputs` are sequences. Its `outputs` are arrays, filled in place.

Two quirks of the code are modelled as written:

- `getCommandDuration` returns `ms` for `hz`/`off` commands, not `ms / 1000`.
  See Findings.
- `playCommands` has no case for `bend` or `perturb` commands. It neither
  enters them nor advances the cursor for them (`Schedule.SilentCommands`).
  `getCommandDuration` does count their children's durations.

## Model

| member | source | states |
|---|---|---|
| Tune.IndexOf | src/beeper.ts:214 | `noteOrder.indexOf(note)`: -1 exactly when the name is absent, otherwise its first position |
| Tune.IndexOfAt | src/beeper.ts:214 | the first occurrence is at `i` when nothing before `i` matches |
| Tune.IndexOfA | src/beeper.ts:208-210 | `indexA` is 9 |
| Tune.NoteHz | src/beeper.ts:213-221 | fails with the invalid-note error exactly for names outside the twelve. Otherwise gives the pitch whose pitch class, counted from C in the requested octave, is the note's own name, with octave 4 around A4 |
| Tune.NoteHzAt | src/beeper.ts:213-220 | the note at position `k` of `noteOrder` lies `12*(octave-4) + k - 9` semitones from A4 |
| Tune.NoteHzA | src/beeper.ts:209-221 | A4 is 440 Hz and, in the real-valued model, A5 is exactly 880 Hz (the source's rounded `TWO_POW_TWELFTH` gives 880.0000000000003 in doubles) |
| Tune.NoteHzC | src/beeper.ts:208-220 | middle C is nine semitones below A4 |
| Tune.NoteHzInvalid | src/beeper.ts:214-218 | an unknown name such as "H" throws |
| Tune.NoteHzOctave | src/beeper.ts:220 | one octave up is exactly twelve semitones up |
| Tune.Pow2Double | src/beeper.ts:221 | `Pow2(0)` is 1 and `Pow2(k + 1)` is twice `Pow2(k)` for every integer `k`, so `Pow2` is `2^k` |
| Tune.ExactHz | src/beeper.ts:209-221 | a pitch has a rational value exactly when it is a literal frequency or a whole number of octaves from A4; A4 itself is `referenceFrequency`, 440 Hz, and every exact equal-tempered value is positive |
| Tune.ExactHzOctave | src/beeper.ts:209-221 | twelve semitones up doubles an exact pitch; with A4 at 440 Hz this fixes each whole-octave pitch at `440 * 2^(n/12)` |
| Tune.EffectiveBpm | src/beeper.ts:160 | the tempo defaults to 120 bpm when the settings give none |
| Tune.NoteSeconds | src/beeper.ts:161 | `semiquavers` sixteenths, default 1, at `bpm` quarters per minute: `d * 4 * bpm == 60 * semiquavers` |
| Tune.SumDurationsAppend | src/beeper.ts:150-167 | `getCommandDuration` summed over a list is additive over concatenation |
| Tune.BpmScopeAdditive | src/beeper.ts:152-155 | a bpm scope's duration is additive over its children and independent of the enclosing tempo |
| Tune.NoteDurationExamples | src/beeper.ts:159-162 | at 120 bpm a default note lasts 0.125 s and four semiquavers 0.5 s; a rest at 60 bpm lasts 0.25 s |
| Tune.OrnamentScopesKeepTempo | src/beeper.ts:163-165 | vibrato, bend and perturb scopes last as long as their children at the enclosing tempo |
| Tune.DefaultTempo | src/beeper.ts:150-167 | a command's duration depends on the settings only through the effective bpm |
| Tune.DefaultTempoSum | src/beeper.ts:150-167 | the same for lists of commands |
| Tune.DurationNonNegative | src/beeper.ts:150-167 | with non-negative times and positive tempos, every command lasts a non-negative time |
| Tune.SumNonNegative | src/beeper.ts:150-167 | the same for lists of commands |
| Tune.NoteSecondsNonNegative | src/beeper.ts:161 | a non-negative note length at a positive tempo is non-negative |
| Tune.SecondsAgreeWithoutLiteralTimes | src/beeper.ts:156-158 | the corrected duration and `getCommandDuration` agree on every tree without `hz`/`off` commands |
| Tune.SumSecondsAgree | src/beeper.ts:156-158 | the same for lists of commands |
| Schedule.Beeper.constructor | src/beeper.ts:2-9 | a fresh sink has been asked for nothing |
| Schedule.Beeper.ToneAt | src/beeper.ts:5 | `toneAt` appends exactly one tone request |
| Schedule.Beeper.VibratoAt | src/beeper.ts:6 | `vibratoAt` appends exactly one vibrato request |
| Schedule.PlayCommands | src/beeper.ts:169-206 | the walk asks the sink for exactly the events of `Play`, in order, and returns `Play`'s end time or error |
| Schedule.PlayCommandAt | src/beeper.ts:172-203 | one `switch` iteration asks for exactly the events of `PlayCommand` and returns its cursor |
| Schedule.PlayNoteAt | src/beeper.ts:173-177 | the `note` case asks for exactly the tone of `PlayCommand`, or throws `noteHz`'s error having asked for nothing |
| Schedule.PlayStep | src/beeper.ts:171-204 | walking one more command extends the walk by that command's events from the current cursor |
| Schedule.PlayStopsAtFailure | src/beeper.ts:214-218 | a throw ends the whole walk with the events scheduled so far |
| Schedule.PlaySingle | src/beeper.ts:171-205 | a one-command list is walked as that command |
| Schedule.NoteSchedulesOneTone | src/beeper.ts:173-177 | a note schedules one tone at the cursor, at its pitch, of its duration less 0.01 s, and advances by its duration. A name `noteHz` rejects schedules nothing and throws |
| Schedule.HzSchedulesOneTone | src/beeper.ts:188-191 | an `hz` command schedules one tone of `ms / 1000` s and advances by that much |
| Schedule.SilentCommands | src/beeper.ts:172-203 | rests and `off` advance the cursor without scheduling; bend and perturb scopes schedule nothing and leave the cursor alone |
| Schedule.VibratoAfterChildren | src/beeper.ts:197-201 | a vibrato scope schedules its children from its start, then one envelope spanning exactly their time; a throw inside skips the envelope |
| Schedule.PlayEmpty | src/beeper.ts:169-205 | an empty list schedules nothing and ends at its start |
| Schedule.PlayAppend | src/beeper.ts:169-206 | siblings are sequential: a concatenation is its first part, then its second from where the first ended |
| Schedule.PlayBounds | src/beeper.ts:169-206 | with non-negative times the cursor never goes back: every event starts between the start and the end |
| Schedule.PlayCommandBounds | src/beeper.ts:172-203 | the same for one command |
| Schedule.PlayEndIsSeconds | src/beeper.ts:169-206 | a walk that enters every scope ends at its start plus the list's total duration in seconds |
| Schedule.PlayCommandEndIsSeconds | src/beeper.ts:172-203 | the same for one command |
| Schedule.PlayEndIsDuration | src/beeper.ts:150-206 | for trees of notes, rests, bpm and vibrato scopes, the walk's end time is the start plus `getCommandDuration`'s sum |
| Schedule.PlayFailsExactlyOnInvalidNote | src/beeper.ts:169-218 | the walk throws exactly when it reaches an unknown note name, and then with the invalid-note error |
| Schedule.ReachesSplit | src/beeper.ts:171-204 | a list reaches an unknown note exactly when its prefix or its last command does |
| Schedule.PlayCommandFailsExactlyOnInvalidNote | src/beeper.ts:172-218 | the same for one command |
| Schedule.QuarterNoteAt60 | src/beeper.ts:173-177 | one A4 of four semiquavers at 60 bpm: one A4 tone of 0.99 s, ending 1 s later |
| Schedule.QuarterNoteInBpmScope | src/beeper.ts:184-187 | the same note in a 60 bpm scope of a 120 bpm walk from 0: the scope's tempo applies, the tone is 440 Hz, the walk ends at 1.0 |
| Schedule.DurationUnitMismatch | src/beeper.ts:156-158 | an `off` of 1000 ms: the walk advances 1 s, `getCommandDuration` says 1000, the corrected duration says 1 |
| BendCurve.BufferLength | src/beeper.ts:80 | `floor(64 * span)`: the largest whole number of samples within the span |
| BendCurve.Curve | src/beeper.ts:82-86 | the curve has `bufferLen + 1` samples, the last `ease(1) * maxValue` |
| BendCurve.PitchBendCurve | src/beeper.ts:76-86 | throws the invalid-delays error exactly when the delays exceed the duration; otherwise returns a fresh buffer holding `Curve` |
| BendCurve.CurveEnds | src/beeper.ts:83-86 | the curve starts at `ease(0)` scaled and ends at `ease(1)` scaled; with the default easing it is the ramp `i / n * maxValue` |
| BendCurve.CurveAt | src/beeper.ts:83-86 | sample `i` is the easing at position `i / n` (1 for the last) times `maxValue` |
| BendCurve.PositionMonotone | src/beeper.ts:84 | sample positions grow with the index and stay in [0, 1] |
| BendCurve.CurveMonotone | src/beeper.ts:83-86 | a non-decreasing easing and a non-negative scale give a non-decreasing curve |
| BendCurve.CurvePairMonotone | src/beeper.ts:83-86 | two samples are ordered as their eased positions are, for a non-negative scale |
| BendCurve.OctaveBendMax | src/beeper.ts:81 | `2^(semitones/12) - 1` is exact for whole octaves, 0 for no bend, and always above -1; plus one, it is the ratio of the bent pitch to the start pitch, `ExactHz(EqualTempered(semitones)) / 440` |
| BendCurve.OctaveBendMaxOctave | src/beeper.ts:81 | one more octave of bend doubles the peak frequency ratio `maxValue + 1` |
| BendCurve.OctaveBendMaxIsOne | src/beeper.ts:81 | a twelve-semitone bend has scale exactly 1 |
| BendCurve.OneSecondBend | src/beeper.ts:80-82 | a one-second bend without delays has 65 samples |
| Quantizer.Round | src/audio-worklet.ts:31 | `Math.round` gives the integer within half a unit, halves rounding up |
| Quantizer.Divisor | src/audio-worklet.ts:31 | for a non-zero sample, the counter reload is a non-zero integer of the sample's sign, within half a unit of `1193182 / x` |
| Quantizer.Quantize | src/audio-worklet.ts:3-31 | the output is finite, has the sign of the input, is 0 exactly for a zero input, and otherwise is the clock divided by the integer reload |
| Quantizer.PitFrequency | src/audio-worklet.ts:3-31 | the frequency of any non-zero reload is in the finite domain, has the reload's sign, and has that reload as its clock ratio |
| Quantizer.DivisorIsNearest | src/audio-worklet.ts:31 | no other integer reload is closer to the requested clock ratio |
| Quantizer.QuantizeKeepsPitFrequencies | src/audio-worklet.ts:3-31 | every frequency a reload can produce passes through unchanged |
| Quantizer.QuantizeIdempotent | src/audio-worklet.ts:31 | quantizing twice is quantizing once |
| Quantizer.CeilDiv | src/audio-worklet.ts:27 | `Math.ceil(n / r)` is the least `c` with `n <= c * r` |
| Quantizer.WindowHoldsItsStep | src/audio-worklet.ts:34-35 | an offset lies in step `q`'s fill window exactly when its absolute frame is in step `q` |
| Quantizer.WindowsTileChunk | src/audio-worklet.ts:26-38 | for a non-empty chunk the windows of the steps from first to last are non-empty, inside the chunk, contiguous, and cover it from 0 to its length |
| Quantizer.WindowInChunk | src/audio-worklet.ts:34-35 | each window is non-empty and inside the chunk |
| Quantizer.WindowsAdjacent | src/audio-worklet.ts:34-35 | each window ends where the next begins |
| Quantizer.OnlyFirstStepStartsEarly | src/audio-worklet.ts:26-31 | only the first step can start before the chunk; a step starting inside reads an input offset in bounds |
| Quantizer.StepValue | src/audio-worklet.ts:31 | a step starting inside the chunk has a finite value |
| Quantizer.ChunkOutput | src/audio-worklet.ts:29-38 | one output sample per input sample |
| Quantizer.ChunkOutputAt | src/audio-worklet.ts:29-38 | output offset `k` holds the value of the step of frame `currentFrame + k` |
| Quantizer.FilledStep | src/audio-worklet.ts:29-38 | filling a step's window with its value writes exactly the offsets whose output is that value |
| Quantizer.StepAtMostLast | src/audio-worklet.ts:26-27 | every offset of the chunk lies in a step between the first and the last repeat index |
| Quantizer.ConstantWithinStep | src/audio-worklet.ts:29-38 | offsets in the same step hold the same value |
| Quantizer.ConstantInputStep | src/audio-worklet.ts:31-38 | input held at `f` from a step's start makes every sample of that step `1193182 / round(1193182 / f)` |
| Quantizer.ChunkSplit | src/audio-worklet.ts:21-42 | splitting a chunk in two and carrying the first part's last sample changes no sample |
| Quantizer.ChunksMatchWhole | src/audio-worklet.ts:21-42 | feeding contiguous chunks in order gives the samples of one chunk holding all the input |
| Quantizer.StreamOutput | src/audio-worklet.ts:29-38 | the reference stream has one sample per input sample |
| Quantizer.FromStartMatchesStream | src/audio-worklet.ts:22-31 | a chunk at frame 0 never uses the carried value and equals the reference stream |
| Quantizer.ChunkedPlaybackMatchesStream | src/audio-worklet.ts:14-46 | chunk-by-chunk playback from frame 0 gives the reference stream, where each sample is the quantized input at its step's first frame |
| Processor.RepeatSamples | src/audio-worklet.ts:9 | the step length is the integer nearest to `sampleRate / updateHz` |
| Processor.DefaultStepLength | src/audio-worklet.ts:8-9 | with the default 64 Hz the step lasts 750 samples at 48 kHz and 689 at 44.1 kHz |
| Processor.InitialPrevValues | src/audio-worklet.ts:10 | one zero-filled array of `channelCount` values per input |
| Processor.NextRow | src/audio-worklet.ts:42 | an input's carried values keep their number of channels |
| Processor.NextPrevValues | src/audio-worklet.ts:16-43 | the carried values keep their shape |
| Processor.PitQuantizer.constructor | src/audio-worklet.ts:6-11 | sets the step length from the rounded ratio and zero carried values, with the defaults applied |
| Processor.PitQuantizer.Process | src/audio-worklet.ts:14-46 | each processed channel's output becomes `ChunkOutput`; its carried value becomes its last output sample; other buffers and values are unchanged; returns true |
| Processor.ProcessInput | src/audio-worklet.ts:18-43 | the channel loop of one input fills each channel's buffer and returns the input's new carried values |
| Processor.ProcessChannel | src/audio-worklet.ts:19-39 | the repeat-index loop leaves the output buffer equal to `ChunkOutput` |
| Processor.Fill | src/audio-worklet.ts:38 | `fill(value, start, end)` sets exactly the offsets in `[start, end)` |

## Left out

- `createBeeper`'s audio graph (src/beeper.ts:14-54) and the automation
  calls of `toneAt`, `vibratoAt`, `silenceAt`, `noiseAt` and the end of
  `pitchBend` (src/beeper.ts:57-75, 87-89). They configure Web Audio nodes.
  The sink is modelled as the record of the requests it receives.
- The argument order of `vibratoNode.frequency.setValueAtTime(startTime,
  rateHz)` (src/beeper.ts:68) and `pitchBend.offset.setValueAtTime(startTime, 0)`
  (src/beeper.ts:87). They only matter to the audio library.
- `WhiteNoiseProcessor` (src/audio-worklet.ts:51-62). It depends on
  `Math.random` (src/audio-worklet.ts:57) and keeps no state.
- Schedule.PlayBounds: it bounds where each request starts, not where its
  tone ends. A note asks for `toneAt(refTime, hz, duration - 0.01)`
  (src/beeper.ts:176), and `toneAt` sets the gain-0 target at
  `startTime + duration` (src/beeper.ts:64). A note shorter than 10 ms, such
  as zero semiquavers, therefore gets its gain-0 target before its gain-1
  target, possibly before the walk's start.
- src/main.ts. It is the DOM editor, file and JSON I/O, and the play button.
  src/audio-worklet.d.ts has only ambient declarations. Its `sampleRate` and
  `currentFrame` are method parameters here.
- Floating point:
  - `Math.pow(2, n/12)` is irrational in general, so pitches stay symbolic and
    the bend scale `maxValue` is a parameter of `BendCurve.PitchBendCurve`.
  - Float32 rounding of stored samples is not modelled.
  - Neither is IEEE behaviour: Infinity or NaN at 0 bpm, or for `updateHz`
    of 0, and the infinite quantizer results. A sample `x` with
    `|x| > 2 * 1193182`, or `x = -2 * 1193182`, has a clock ratio that rounds
    to zero and gives `+Infinity` or `-Infinity`.
- Quantizer.ChunkOutput: it requires every sample of the channel to be in
  `Playable`. The source reads only the sample at each step's start (offset
  `q * repeatSamples - currentFrame`), so out-of-range samples elsewhere
  would not matter to it.
- Schedule.PlayCommands: it takes `bpm` as a required parameter. The source's
  default `bpm = 120` (src/beeper.ts:169) is not modelled. A caller relying on
  it passes `Tune.DefaultBpm`.
- Schedule.PlayCommands: a tempo of 0 is excluded by `PlayDefined` instead of
  producing Infinity times.
- Processor.PitQuantizer.Process: it requires the following. Each is a
  situation where the source loops forever, reads `undefined`, or stores NaN:
  - `repeatSamples >= 1`. Zero makes the repeat-index loop run forever.
  - Non-empty input channels. An empty channel stores `outputs[i][j][-1]`,
    which is NaN.
  - An output buffer of the channel's length for every input channel.
  - A carried value for every input channel. Beyond `channelCount`, the source
    reads `undefined` from the Float32Array and ignores the write. Beyond
    `numberOfInputs`, `this.prevValues[i]` is `undefined`, and the write
    `this.prevValues[i][j] = …` (src/audio-worklet.ts:42) throws a TypeError.
  - Distinct output buffers, as the audio host provides them.
- `octave` is an integer and note names are strings. A string is needed so
  that the invalid-note throw can be reached. Non-integer octaves from JSON are
  not modelled.
- `TWO_POW_TWELFTH` (src/beeper.ts:211) is not computed. An equal-tempered
  pitch is stated by its semitone offset instead.

## Findings

| source | as written | input that shows it | evidently intended | confidence | as-written member | corrected member |
|---|---|---|---|---|---|---|
| src/beeper.ts:156-158 | `getCommandDuration` returns `cmd.ms` for `hz` and `off` commands, a number of milliseconds, while every other case and `playCommands` (src/beeper.ts:189-194) use seconds | `{type:'off', ms:1000}`: `getCommandDuration` gives 1000 while `playCommands` advances the cursor by 1 | `cmd.ms / 1000`, so that durations and the walk agree | not executed | Schedule.DurationUnitMismatch | Schedule.PlayEndIsSeconds |
