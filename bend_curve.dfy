/**
 * The buffer-building part of the sink's `pitchBend` (src/beeper.ts): the
 * sampled bend curve that the audio host plays back as a value curve.
 */
module BendCurve {
  import opened Wrappers
  import opened Tune

  /** `UPDATE_HZ`: curve samples per second. */
  const UpdateHz: nat := 64

  /** The optional `{ startDelay, endDelay, ease }` argument of `pitchBend`. */
  datatype BendParams = BendParams(startDelay: Option<real>, endDelay: Option<real>, ease: Option<real -> real>)

  /** `startDelay = 0` */
  function StartDelay(p: BendParams): real { p.startDelay.GetOr(0.0) }

  /** `endDelay = 0` */
  function EndDelay(p: BendParams): real { p.endDelay.GetOr(0.0) }

  /** The default easing `(v) => v`. */
  function Identity(v: real): real { v }

  /** `ease = (v) => v` */
  function Ease(p: BendParams): real -> real { p.ease.GetOr(Identity) }

  /** How long the curve itself lasts: the bend minus both delays. */
  function ActiveSpan(duration: real, p: BendParams): real {
    duration - StartDelay(p) - EndDelay(p)
  }

  /** `bufferLen = Math.floor(UPDATE_HZ * span)` for a non-negative span. */
  function BufferLength(span: real): (n: nat)
    requires span >= 0.0
    ensures n as real <= UpdateHz as real * span < n as real + 1.0
  {
    (UpdateHz as real * span).Floor
  }

  /**
   * The curve of `bufferLen + 1` samples: sample `i < n` is the eased
   * position `i / n` scaled by `maxValue`, the last is `ease(1)` scaled.
   */
  function Curve(n: nat, ease: real -> real, maxValue: real): (c: seq<real>)
    ensures |c| == n + 1
    ensures c[n] == ease(1.0) * maxValue
  {
    seq(n + 1, i requires 0 <= i < n + 1 => Sample(n, ease, maxValue, i))
  }

  function Sample(n: nat, ease: real -> real, maxValue: real, i: nat): real {
    if i < n then ease(i as real / n as real) * maxValue else ease(1.0) * maxValue
  }

  /**
   * The curve buffer of `pitchBend(startTime, semitones, duration, params)`,
   * with `maxValue = 2^(semitones/12) - 1` supplied by the caller. Throws
   * before allocating anything when the delays exceed the duration.
   */
  method PitchBendCurve(duration: real, params: BendParams, maxValue: real)
    returns (r: Result<array<real>, Error>)
    ensures r.Failure? <==> ActiveSpan(duration, params) < 0.0
    ensures r.Failure? ==> r.error == InvalidDelays
    ensures r.Success? ==>
      && fresh(r.value)
      && r.value[..] == Curve(BufferLength(ActiveSpan(duration, params)), Ease(params), maxValue)
  {
    var startDelay, endDelay, ease := StartDelay(params), EndDelay(params), Ease(params);
    if duration - startDelay - endDelay < 0.0 {
      return Failure(InvalidDelays);
    }
    var bufferLen := BufferLength(duration - startDelay - endDelay);
    var buffer := new real[bufferLen + 1];
    for i := 0 to bufferLen
      invariant forall k :: 0 <= k < i ==> buffer[k] == Sample(bufferLen, ease, maxValue, k)
    {
      buffer[i] := ease(i as real / bufferLen as real) * maxValue;
    }
    buffer[bufferLen] := ease(1.0) * maxValue;
    ghost var curve := Curve(bufferLen, ease, maxValue);
    forall k | 0 <= k < bufferLen + 1 ensures buffer[k] == curve[k] {
      assert curve[k] == Sample(bufferLen, ease, maxValue, k);
    }
    assert buffer[..] == curve;
    r := Success(buffer);
  }

  /**
   * The curve starts at `ease(0)` scaled (or, when it has a single sample,
   * at `ease(1)` scaled), ends at `ease(1)` scaled, and with the default
   * easing is the straight ramp `i / n * maxValue` from 0 to `maxValue`.
   */
  lemma CurveEnds(n: nat, ease: real -> real, maxValue: real)
    ensures Curve(n, ease, maxValue)[0] == if n == 0 then ease(1.0) * maxValue else ease(0.0) * maxValue
    ensures Curve(n, ease, maxValue)[n] == ease(1.0) * maxValue
    ensures n > 0 ==> forall i :: 0 <= i <= n ==> Curve(n, Identity, maxValue)[i] == (i as real / n as real) * maxValue
  {
    if n > 0 {
      assert n as real / n as real == 1.0;
    }
  }

  /** The position in [0, 1] at which sample `i` of an `n`-step curve eases. */
  function Position(n: nat, i: nat): real {
    if i < n then i as real / n as real else 1.0
  }

  lemma CurveAt(n: nat, ease: real -> real, maxValue: real, i: nat)
    requires i <= n
    ensures Curve(n, ease, maxValue)[i] == ease(Position(n, i)) * maxValue
  {
  }

  /** Positions grow with the sample index and stay within [0, 1]. */
  lemma PositionMonotone(n: nat, i: nat, j: nat)
    requires i <= j <= n
    ensures 0.0 <= Position(n, i) <= Position(n, j) <= 1.0
  {
    if j < n {
      DivMonotone(i as real, j as real, n as real);
      DivAtMostOne(j as real, n as real);
    } else if i < n {
      DivAtMostOne(i as real, n as real);
    }
  }

  /** A non-decreasing easing on [0, 1] with a non-negative scale gives a non-decreasing curve. */
  lemma CurveMonotone(n: nat, ease: real -> real, maxValue: real)
    requires maxValue >= 0.0
    requires forall x: real, y: real :: 0.0 <= x <= y <= 1.0 ==> ease(x) <= ease(y)
    ensures forall i, j :: 0 <= i <= j <= n ==> Curve(n, ease, maxValue)[i] <= Curve(n, ease, maxValue)[j]
  {
    forall i, j | 0 <= i <= j <= n ensures Curve(n, ease, maxValue)[i] <= Curve(n, ease, maxValue)[j] {
      PositionMonotone(n, i, j);
      CurvePairMonotone(n, ease, maxValue, i, j);
    }
  }

  lemma CurvePairMonotone(n: nat, ease: real -> real, maxValue: real, i: nat, j: nat)
    requires maxValue >= 0.0 && i <= j <= n
    requires ease(Position(n, i)) <= ease(Position(n, j))
    ensures Curve(n, ease, maxValue)[i] <= Curve(n, ease, maxValue)[j]
  {
    CurveAt(n, ease, maxValue, i);
    CurveAt(n, ease, maxValue, j);
    MulNonNegative(ease(Position(n, i)), ease(Position(n, j)), maxValue);
  }

  lemma DivMonotone(a: real, b: real, d: real)
    requires 0.0 <= a <= b && d > 0.0
    ensures 0.0 <= a / d <= b / d
  {
    assert b / d - a / d == (b - a) / d;
  }

  lemma DivAtMostOne(a: real, d: real)
    requires 0.0 <= a <= d && d > 0.0
    ensures 0.0 <= a / d <= 1.0
  {
    DivMonotone(a, d, d);
    assert d / d == 1.0;
  }

  lemma MulNonNegative(a: real, b: real, m: real)
    requires a <= b && m >= 0.0
    ensures a * m <= b * m
  {
  }

  /** A bend of a whole number of octaves has the exact scale `2^octaves - 1`; twelve semitones give 1. */
  function OctaveBendMax(semitones: int): (m: Option<real>)
    ensures m.Some? <==> semitones % 12 == 0
    ensures semitones == 0 ==> m == Some(0.0)
    ensures m.Some? ==> m.value > -1.0
    ensures m.Some? ==> m.value + 1.0 == ExactHz(EqualTempered(semitones)).value / ReferenceFrequency
  {
    if semitones % 12 == 0 then Some(Pow2(semitones / 12) - 1.0) else None
  }

  /** A bend one octave wider doubles the peak frequency ratio `maxValue + 1`. */
  lemma OctaveBendMaxOctave(semitones: int)
    requires semitones % 12 == 0
    ensures OctaveBendMax(semitones + 12).value + 1.0 == 2.0 * (OctaveBendMax(semitones).value + 1.0)
  {
    assert (semitones + 12) / 12 == semitones / 12 + 1;
    Pow2Double(semitones / 12);
  }

  /** A one-octave bend doubles the frequency at its peak: the scale is exactly 1. */
  lemma OctaveBendMaxIsOne()
    ensures OctaveBendMax(12) == Some(1.0)
  {
    assert Pow2(1) == 2.0 * Pow2(0);
  }

  /** With no delays and a one-second bend, the curve has 65 samples. */
  lemma OneSecondBend(ease: real -> real, maxValue: real)
    ensures ActiveSpan(1.0, BendParams(None, None, Some(ease))) == 1.0
    ensures |Curve(BufferLength(1.0), ease, maxValue)| == 65
  {
  }
}
