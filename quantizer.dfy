/**
 * The value logic of the PC-speaker precision processor
 * (src/audio-worklet.ts): the input frequency is held in steps of
 * `repeatSamples` samples, and each step's value is the nearest frequency an
 * 8253 PIT counter clocked at 1193182 Hz can produce. This module states, as
 * functions on sequences, what one `process` call writes into a channel, and
 * proves the properties of the fill windows and of chunk-by-chunk playback.
 */
module Quantizer {

  /** `baseFrequency`: the PIT input clock in Hz. */
  const BaseFrequency: real := 1193182.0

  /** `Math.round`: the nearest integer, halves rounded up. */
  function Round(y: real): (n: int)
    ensures n as real - 0.5 <= y < n as real + 0.5
  {
    (y + 0.5).Floor
  }

  /**
   * An input sample the quantizer maps to a finite value: one whose clock
   * ratio `1193182 / x` does not round to zero, or zero itself, whose ratio
   * is infinite and whose result is therefore 0.
   */
  predicate Playable(x: real) {
    -2.0 * BaseFrequency < x <= 2.0 * BaseFrequency
  }

  predicate AllPlayable(s: seq<real>) {
    forall i :: 0 <= i < |s| ==> Playable(s[i])
  }

  /**
   * The PIT reload value `Math.round(baseFrequency / x)` of a non-zero
   * sample: the non-zero integer nearest to the clock ratio, of the sign of `x`.
   */
  function Divisor(x: real): (n: int)
    requires Playable(x) && x != 0.0
    ensures n != 0 && (n > 0 <==> x > 0.0)
    ensures n as real - 0.5 <= BaseFrequency / x < n as real + 0.5
  {
    assert BaseFrequency / x * x == BaseFrequency;
    assert x > 0.0 ==> BaseFrequency / x >= 0.5;
    assert x < 0.0 ==> BaseFrequency / x < -0.5;
    Round(BaseFrequency / x)
  }

  /**
   * `baseFrequency / Math.round(baseFrequency / x)`: the frequency the PIT
   * actually produces for `x`, of the sign of `x`; a zero sample gives
   * `1193182 / Infinity`, that is 0.
   */
  function Quantize(x: real): (q: real)
    requires Playable(x)
    ensures Playable(q)
    ensures x == 0.0 <==> q == 0.0
    ensures q > 0.0 <==> x > 0.0
    ensures x != 0.0 ==> q * Divisor(x) as real == BaseFrequency
  {
    if x == 0.0 then 0.0 else
      var n := Divisor(x);
      PitFrequency(n);
      BaseFrequency / n as real
  }

  /** The frequency of a reload value `n` is playable, of the sign of `n`, and has clock ratio `n`. */
  lemma PitFrequency(n: int)
    requires n != 0
    ensures Playable(BaseFrequency / n as real)
    ensures BaseFrequency / n as real > 0.0 <==> n > 0
    ensures BaseFrequency / (BaseFrequency / n as real) == n as real
  {
    var f := BaseFrequency / n as real;
    assert f * n as real == BaseFrequency;
    if n > 0 {
      assert f <= BaseFrequency by {
        assert f * (n as real - 1.0) >= 0.0;
      }
    } else {
      assert f >= -BaseFrequency by {
        assert f * (n as real + 1.0) >= 0.0;
      }
    }
  }

  /** No other reload value comes closer to the requested clock ratio than `Divisor(x)`. */
  lemma DivisorIsNearest(x: real, m: int)
    requires Playable(x) && x != 0.0
    ensures Abs(BaseFrequency / x - Divisor(x) as real) <= Abs(BaseFrequency / x - m as real)
  {
    NearestInteger(BaseFrequency / x, Divisor(x), m);
  }

  lemma NearestInteger(y: real, n: int, m: int)
    requires n as real - 0.5 <= y < n as real + 0.5
    ensures Abs(y - n as real) <= Abs(y - m as real)
  {
    var d, e := y - n as real, y - m as real;
    assert -0.5 <= d < 0.5;
    if m < n {
      assert m as real <= n as real - 1.0;
      assert e >= 0.5;
    } else if m > n {
      assert m as real >= n as real + 1.0;
      assert e <= -0.5;
    }
  }

  function Abs(x: real): real {
    if x < 0.0 then -x else x
  }

  /** Every frequency a PIT reload value `n` produces, up or down, is reproduced exactly. */
  lemma QuantizeKeepsPitFrequencies(n: int)
    requires n != 0
    ensures Playable(BaseFrequency / n as real)
    ensures Quantize(BaseFrequency / n as real) == BaseFrequency / n as real
  {
    PitFrequency(n);
    assert Round(n as real) == n;
  }

  /** Quantizing twice is quantizing once. */
  lemma QuantizeIdempotent(x: real)
    requires Playable(x)
    ensures Quantize(Quantize(x)) == Quantize(x)
  {
    if x != 0.0 {
      QuantizeKeepsPitFrequencies(Divisor(x));
    }
  }

  // ---------------------------------------------------------------------
  // Integer facts about steps of `r` samples
  // ---------------------------------------------------------------------

  lemma MulMonotone(x: int, y: int, r: nat)
    requires x <= y
    ensures x * r <= y * r
  {
    assert (y - x) * r >= 0;
  }

  /** `a / r` is the one `q` whose step `[q*r, (q+1)*r)` holds `a`. */
  lemma StepOf(a: int, r: nat, q: int)
    requires r >= 1
    ensures q == a / r <==> q * r <= a < (q + 1) * r
  {
    var d := a / r;
    assert d * r <= a < (d + 1) * r;
    if q * r <= a < (q + 1) * r {
      if q < d {
        MulMonotone(q + 1, d, r);
      } else if q > d {
        MulMonotone(d + 1, q, r);
      }
    }
  }

  /** `Math.ceil(n / r)` for integers `n >= 0` and `r >= 1`. */
  function CeilDiv(n: nat, r: nat): (c: nat)
    requires r >= 1
    ensures (c - 1) * r < n <= c * r
  {
    var c := (n + r - 1) / r;
    StepOf(n + r - 1, r, c);
    c
  }

  // ---------------------------------------------------------------------
  // One chunk: the steps that touch it and their fill windows
  // ---------------------------------------------------------------------

  /** `firstRepeatIndex`: the step holding the chunk's first frame. */
  function FirstStep(currentFrame: nat, r: nat): nat
    requires r >= 1
  {
    currentFrame / r
  }

  /** `lastRepeatIndex`: the step holding the chunk's last frame (one less than `FirstStep` for an empty chunk at a step boundary). */
  function LastStep(currentFrame: nat, len: nat, r: nat): int
    requires r >= 1
  {
    CeilDiv(currentFrame + len, r) - 1
  }

  /** `localStartIndex = max(q*r - firstIndex, 0)` */
  function LocalStart(q: int, currentFrame: nat, r: nat): int {
    if q * r - currentFrame > 0 then q * r - currentFrame else 0
  }

  /** `localEndIndex = min((q+1)*r - firstIndex, channel.length)` */
  function LocalEnd(q: int, currentFrame: nat, len: nat, r: nat): int {
    if (q + 1) * r - currentFrame < len then (q + 1) * r - currentFrame else len
  }

  /** A chunk-relative offset `k` lies in step `q`'s window exactly when its absolute frame belongs to step `q`. */
  lemma WindowHoldsItsStep(q: int, currentFrame: nat, len: nat, r: nat, k: int)
    requires r >= 1
    requires 0 <= k < len
    ensures LocalStart(q, currentFrame, r) <= k < LocalEnd(q, currentFrame, len, r) <==> (currentFrame + k) / r == q
  {
    StepOf(currentFrame + k, r, q);
  }

  /**
   * For a non-empty chunk, the windows of steps `FirstStep..LastStep` are
   * non-empty, lie within the chunk, follow one another without gap or
   * overlap, and together cover the chunk from offset 0 to its length.
   */
  lemma WindowsTileChunk(currentFrame: nat, len: nat, r: nat)
    requires r >= 1 && len >= 1
    ensures FirstStep(currentFrame, r) <= LastStep(currentFrame, len, r)
    ensures LocalStart(FirstStep(currentFrame, r), currentFrame, r) == 0
    ensures LocalEnd(LastStep(currentFrame, len, r), currentFrame, len, r) == len
    ensures forall q :: FirstStep(currentFrame, r) <= q <= LastStep(currentFrame, len, r) ==>
      0 <= LocalStart(q, currentFrame, r) < LocalEnd(q, currentFrame, len, r) <= len
    ensures forall q :: FirstStep(currentFrame, r) <= q < LastStep(currentFrame, len, r) ==>
      LocalEnd(q, currentFrame, len, r) == LocalStart(q + 1, currentFrame, r)
  {
    var first, last := FirstStep(currentFrame, r), LastStep(currentFrame, len, r);
    StepOf(currentFrame, r, first);
    StepOf(currentFrame + len - 1, r, last);
    forall q | first <= q <= last
      ensures 0 <= LocalStart(q, currentFrame, r) < LocalEnd(q, currentFrame, len, r) <= len
    {
      WindowInChunk(currentFrame, len, r, q);
    }
    forall q | first <= q < last
      ensures LocalEnd(q, currentFrame, len, r) == LocalStart(q + 1, currentFrame, r)
    {
      WindowsAdjacent(currentFrame, len, r, q);
    }
  }

  lemma WindowInChunk(currentFrame: nat, len: nat, r: nat, q: int)
    requires r >= 1 && len >= 1
    requires FirstStep(currentFrame, r) <= q <= LastStep(currentFrame, len, r)
    ensures 0 <= LocalStart(q, currentFrame, r) < LocalEnd(q, currentFrame, len, r) <= len
  {
    var first, last := FirstStep(currentFrame, r), LastStep(currentFrame, len, r);
    StepOf(currentFrame, r, first);
    StepOf(currentFrame + len - 1, r, last);
    MulMonotone(first, q, r);
    MulMonotone(q, last, r);
  }

  lemma WindowsAdjacent(currentFrame: nat, len: nat, r: nat, q: int)
    requires r >= 1 && len >= 1
    requires FirstStep(currentFrame, r) <= q < LastStep(currentFrame, len, r)
    ensures LocalEnd(q, currentFrame, len, r) == LocalStart(q + 1, currentFrame, r)
  {
    var first, last := FirstStep(currentFrame, r), LastStep(currentFrame, len, r);
    StepOf(currentFrame, r, first);
    StepOf(currentFrame + len - 1, r, last);
    MulMonotone(first + 1, q + 1, r);
    MulMonotone(q + 1, last, r);
  }

  /**
   * Of the steps that touch a chunk, only the first can start before it; a
   * step starting inside the chunk reads an input offset within bounds.
   */
  lemma OnlyFirstStepStartsEarly(currentFrame: nat, len: nat, r: nat, q: int)
    requires r >= 1
    requires FirstStep(currentFrame, r) <= q <= LastStep(currentFrame, len, r)
    ensures q * r < currentFrame ==> q == FirstStep(currentFrame, r)
    ensures q * r >= currentFrame ==> 0 <= q * r - currentFrame < len
  {
    var first, last := FirstStep(currentFrame, r), LastStep(currentFrame, len, r);
    StepOf(currentFrame, r, first);
    if q > first {
      MulMonotone(first + 1, q, r);
    }
    MulMonotone(q, last, r);
    assert last * r < currentFrame + len;
  }

  // ---------------------------------------------------------------------
  // What one call writes into one channel
  // ---------------------------------------------------------------------

  /**
   * The value of step `q`: the quantized input at the step's first frame when
   * that frame is in the chunk, otherwise the value carried from the previous
   * chunk.
   */
  function StepValue(channel: seq<real>, currentFrame: nat, r: nat, q: nat, prev: real): (v: real)
    requires r >= 1 && AllPlayable(channel)
    requires q * r < currentFrame + |channel|
    ensures q * r >= currentFrame ==> Playable(v)
  {
    if q * r >= currentFrame then Quantize(channel[q * r - currentFrame]) else prev
  }

  /** Offset `k` of the chunk lies in the step that `StepValue` is asked about. */
  lemma SampleStep(currentFrame: nat, len: nat, r: nat, k: nat)
    requires r >= 1 && k < len
    ensures ((currentFrame + k) / r) * r <= currentFrame + k < currentFrame + len
  {
    StepOf(currentFrame + k, r, (currentFrame + k) / r);
  }

  /**
   * The samples `process` writes for one channel of one input: offset `k`
   * holds the value of the step of absolute frame `currentFrame + k`.
   */
  function ChunkOutput(channel: seq<real>, currentFrame: nat, r: nat, prev: real): (out: seq<real>)
    requires r >= 1 && AllPlayable(channel)
    ensures |out| == |channel|
  {
    seq(|channel|, k requires 0 <= k < |channel| =>
      SampleStep(currentFrame, |channel|, r, k);
      StepValue(channel, currentFrame, r, (currentFrame + k) / r, prev))
  }

  lemma ChunkOutputAt(channel: seq<real>, currentFrame: nat, r: nat, prev: real, k: nat)
    requires r >= 1 && AllPlayable(channel) && k < |channel|
    ensures ((currentFrame + k) / r) * r < currentFrame + |channel|
    ensures ChunkOutput(channel, currentFrame, r, prev)[k] == StepValue(channel, currentFrame, r, (currentFrame + k) / r, prev)
  {
    SampleStep(currentFrame, |channel|, r, k);
  }

  /**
   * Filling step `q`'s window with `StepValue` of `q` writes exactly the
   * offsets whose `ChunkOutput` sample is that value.
   */
  lemma FilledStep(channel: seq<real>, currentFrame: nat, r: nat, prev: real, q: int, k: nat)
    requires r >= 1 && AllPlayable(channel) && k < |channel|
    requires FirstStep(currentFrame, r) <= q <= LastStep(currentFrame, |channel|, r)
    ensures q * r < currentFrame + |channel|
    ensures LocalStart(q, currentFrame, r) <= k < LocalEnd(q, currentFrame, |channel|, r) <==> (currentFrame + k) / r == q
    ensures (currentFrame + k) / r == q ==>
      ChunkOutput(channel, currentFrame, r, prev)[k] == StepValue(channel, currentFrame, r, q, prev)
  {
    OnlyFirstStepStartsEarly(currentFrame, |channel|, r, q);
    WindowHoldsItsStep(q, currentFrame, |channel|, r, k);
    ChunkOutputAt(channel, currentFrame, r, prev, k);
  }

  /** Every offset of the chunk lies in one of the steps `FirstStep..LastStep`. */
  lemma StepAtMostLast(currentFrame: nat, len: nat, r: nat, k: nat)
    requires r >= 1 && k < len
    ensures FirstStep(currentFrame, r) <= (currentFrame + k) / r <= LastStep(currentFrame, len, r)
  {
    var d, last := (currentFrame + k) / r, LastStep(currentFrame, len, r);
    StepOf(currentFrame + k, r, d);
    StepOf(currentFrame, r, FirstStep(currentFrame, r));
    if d < FirstStep(currentFrame, r) {
      MulMonotone(d + 1, FirstStep(currentFrame, r), r);
    }
    if d > last {
      MulMonotone(last + 1, d, r);
    }
  }

  function Last(s: seq<real>): real
    requires |s| > 0
  {
    s[|s| - 1]
  }

  /** Two offsets in the same step hold the same value: the output is constant on each step. */
  lemma ConstantWithinStep(channel: seq<real>, currentFrame: nat, r: nat, prev: real, k1: nat, k2: nat)
    requires r >= 1 && AllPlayable(channel)
    requires k1 < |channel| && k2 < |channel|
    requires (currentFrame + k1) / r == (currentFrame + k2) / r
    ensures ChunkOutput(channel, currentFrame, r, prev)[k1] == ChunkOutput(channel, currentFrame, r, prev)[k2]
  {
    ChunkOutputAt(channel, currentFrame, r, prev, k1);
    ChunkOutputAt(channel, currentFrame, r, prev, k2);
  }

  /**
   * Input held at `f` from the start of a step that begins inside the chunk
   * makes every sample of that step `Quantize(f)`.
   */
  lemma ConstantInputStep(channel: seq<real>, currentFrame: nat, r: nat, prev: real, q: nat, f: real)
    requires r >= 1 && AllPlayable(channel)
    requires currentFrame <= q * r < currentFrame + |channel|
    requires forall k :: q * r - currentFrame <= k < |channel| && k < (q + 1) * r - currentFrame ==> channel[k] == f
    ensures Playable(f)
    ensures forall k :: 0 <= k < |channel| && (currentFrame + k) / r == q ==>
      ChunkOutput(channel, currentFrame, r, prev)[k] == Quantize(f)
  {
    assert channel[q * r - currentFrame] == f;
    forall k | 0 <= k < |channel| && (currentFrame + k) / r == q
      ensures ChunkOutput(channel, currentFrame, r, prev)[k] == Quantize(f)
    {
      ChunkOutputAt(channel, currentFrame, r, prev, k);
    }
  }

  // ---------------------------------------------------------------------
  // Playback in chunks
  // ---------------------------------------------------------------------

  /**
   * Splitting a chunk in two, and carrying the first part's last sample into
   * the second as `prevValues` does, changes no sample.
   */
  lemma {:induction false} ChunkSplit(a: seq<real>, b: seq<real>, currentFrame: nat, r: nat, prev: real)
    requires r >= 1 && |a| >= 1 && AllPlayable(a) && AllPlayable(b)
    ensures AllPlayable(a + b)
    ensures ChunkOutput(a + b, currentFrame, r, prev) ==
      ChunkOutput(a, currentFrame, r, prev) + ChunkOutput(b, currentFrame + |a|, r, Last(ChunkOutput(a, currentFrame, r, prev)))
  {
    var ab := a + b;
    assert AllPlayable(ab) by {
      forall i | 0 <= i < |ab| ensures Playable(ab[i]) {
        if i < |a| { assert ab[i] == a[i]; } else { assert ab[i] == b[i - |a|]; }
      }
    }
    var whole := ChunkOutput(ab, currentFrame, r, prev);
    var left := ChunkOutput(a, currentFrame, r, prev);
    var carry := Last(left);
    var right := ChunkOutput(b, currentFrame + |a|, r, carry);
    forall k | 0 <= k < |ab| ensures whole[k] == (left + right)[k] {
      ChunkOutputAt(ab, currentFrame, r, prev, k);
      var q := (currentFrame + k) / r;
      StepOf(currentFrame + k, r, q);
      if k < |a| {
        ChunkOutputAt(a, currentFrame, r, prev, k);
        if q * r >= currentFrame {
          assert ab[q * r - currentFrame] == a[q * r - currentFrame];
        }
      } else {
        var k' := k - |a|;
        ChunkOutputAt(b, currentFrame + |a|, r, carry, k');
        assert (currentFrame + |a| + k') / r == q;
        if q * r >= currentFrame + |a| {
          assert ab[q * r - currentFrame] == b[q * r - currentFrame - |a|];
        } else {
          // The step began before `b`, so it holds the frame of `a`'s last sample too.
          ChunkOutputAt(a, currentFrame, r, prev, |a| - 1);
          StepOf(currentFrame + |a| - 1, r, q);
          if q * r >= currentFrame {
            assert ab[q * r - currentFrame] == a[q * r - currentFrame];
          }
        }
      }
    }
  }

  /** The samples produced by feeding `chunks` in order, each starting where the previous ended and carrying its last sample. */
  function ProcessChunks(chunks: seq<seq<real>>, currentFrame: nat, r: nat, prev: real): (out: seq<real>)
    requires r >= 1
    requires forall i :: 0 <= i < |chunks| ==> |chunks[i]| >= 1 && AllPlayable(chunks[i])
    decreases |chunks|
  {
    if |chunks| == 0 then []
    else
      var first := ChunkOutput(chunks[0], currentFrame, r, prev);
      first + ProcessChunks(chunks[1..], currentFrame + |chunks[0]|, r, Last(first))
  }

  function Concat(chunks: seq<seq<real>>): seq<real>
    decreases |chunks|
  {
    if |chunks| == 0 then [] else chunks[0] + Concat(chunks[1..])
  }

  lemma {:induction false} ConcatPlayable(chunks: seq<seq<real>>)
    requires forall i :: 0 <= i < |chunks| ==> AllPlayable(chunks[i])
    ensures AllPlayable(Concat(chunks))
    decreases |chunks|
  {
    if |chunks| > 0 {
      ConcatPlayable(chunks[1..]);
      var c, rest := chunks[0], Concat(chunks[1..]);
      forall i | 0 <= i < |c + rest| ensures Playable((c + rest)[i]) {
        if i < |c| { assert (c + rest)[i] == c[i]; } else { assert (c + rest)[i] == rest[i - |c|]; }
      }
    }
  }

  /** Chunk-by-chunk playback produces exactly the samples of one chunk holding all the input. */
  lemma {:induction false} ChunksMatchWhole(chunks: seq<seq<real>>, currentFrame: nat, r: nat, prev: real)
    requires r >= 1
    requires forall i :: 0 <= i < |chunks| ==> |chunks[i]| >= 1 && AllPlayable(chunks[i])
    ensures AllPlayable(Concat(chunks))
    ensures ProcessChunks(chunks, currentFrame, r, prev) == ChunkOutput(Concat(chunks), currentFrame, r, prev)
    decreases |chunks|
  {
    ConcatPlayable(chunks);
    if |chunks| > 0 {
      var first := ChunkOutput(chunks[0], currentFrame, r, prev);
      ChunksMatchWhole(chunks[1..], currentFrame + |chunks[0]|, r, Last(first));
      ChunkSplit(chunks[0], Concat(chunks[1..]), currentFrame, r, prev);
    }
  }

  /**
   * The reference behaviour over the whole stream from frame 0: sample `n`
   * is the quantized input at the first frame of its step.
   */
  function StreamOutput(s: seq<real>, r: nat): (out: seq<real>)
    requires r >= 1 && AllPlayable(s)
    ensures |out| == |s|
  {
    seq(|s|, n requires 0 <= n < |s| =>
      SampleStep(0, |s|, r, n);
      Quantize(s[(n / r) * r]))
  }

  /** A chunk starting at frame 0 never uses the carried value and matches the reference stream. */
  lemma FromStartMatchesStream(s: seq<real>, r: nat, prev: real)
    requires r >= 1 && AllPlayable(s)
    ensures ChunkOutput(s, 0, r, prev) == StreamOutput(s, r)
  {
    forall n | 0 <= n < |s| ensures ChunkOutput(s, 0, r, prev)[n] == StreamOutput(s, r)[n] {
      ChunkOutputAt(s, 0, r, prev, n);
      MulMonotone(0, n / r, r);
    }
  }

  /** Playing the whole stream chunk by chunk from frame 0 gives the reference stream. */
  lemma ChunkedPlaybackMatchesStream(chunks: seq<seq<real>>, r: nat, prev: real)
    requires r >= 1
    requires forall i :: 0 <= i < |chunks| ==> |chunks[i]| >= 1 && AllPlayable(chunks[i])
    ensures AllPlayable(Concat(chunks))
    ensures ProcessChunks(chunks, 0, r, prev) == StreamOutput(Concat(chunks), r)
  {
    ChunksMatchWhole(chunks, 0, r, prev);
    FromStartMatchesStream(Concat(chunks), r, prev);
  }
}
