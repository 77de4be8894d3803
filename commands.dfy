/**
 * The tune representation of src/beeper.ts (the `BeeperCommand` union), the
 * note-to-pitch mapping `noteHz`, and the pure duration calculator
 * `getCommandDuration`.
 *
 * Numbers are Dafny `real`s: every duration the source computes is a ratio
 * (`semiquavers / (4 * (bpm / 60))`), so reals hold it exactly.
 */
module Tune {
  import opened Wrappers

  /** One command of a tune. Scope commands hold their children in `commands`. */
  datatype Command =
    | Bpm(bpm: real, commands: seq<Command>)
    | PlayHz(hz: real, ms: real)
    | Off(ms: real)
    | PlayNote(note: string, octave: Option<int>, semiquavers: Option<real>)
    | Rest(semiquavers: Option<real>)
    | Vibrato(hz: real, semitones: real, commands: seq<Command>)
    | Perturb(semitones: real, commands: seq<Command>)
    | PitchBend(semitones: real, commands: seq<Command>)

  /** The two conditions the source throws for. */
  datatype Error = InvalidNote(note: string) | InvalidDelays

  /** The optional `settings` argument of `getCommandDuration`: `{ bpm?: number }`. */
  datatype Settings = Settings(bpm: Option<real>)

  const DefaultBpm: real := 120.0
  const DefaultOctave: int := 4
  const DefaultSemiquavers: real := 1.0

  /** The twelve recognised note names, in ascending pitch order within an octave. */
  const NoteOrder: seq<string> := ["C", "C#", "D", "D#", "E", "F", "F#", "G", "G#", "A", "A#", "B"]

  /** `indexA`, the position of A in `NoteOrder` (`IndexOfA` proves it). */
  const IndexA: int := 9

  /** A4, the reference pitch, in Hz. */
  const ReferenceFrequency: real := 440.0

  /**
   * A pitch as the sink receives it: a literal frequency in Hz, or the
   * equal-tempered pitch `440 * 2^(n/12)` given by its semitone offset `n`
   * from A4 (kept symbolic, since the power is irrational in general).
   */
  datatype Frequency = Hz(hz: real) | EqualTempered(semitonesFromA4: int)

  /** `Array.prototype.indexOf`: the first position of `x` in `s`, or -1. */
  function IndexOf(s: seq<string>, x: string): (r: int)
    ensures -1 <= r < |s|
    ensures r == -1 <==> x !in s
    ensures 0 <= r ==> s[r] == x && forall j :: 0 <= j < r ==> s[j] != x
  {
    IndexFrom(s, x, 0)
  }

  /** The first position at or after `i` where `x` occurs in `s`, or -1. */
  function IndexFrom(s: seq<string>, x: string, i: nat): (r: int)
    requires i <= |s|
    ensures r == -1 || i <= r < |s|
    ensures r == -1 <==> forall j :: i <= j < |s| ==> s[j] != x
    ensures 0 <= r ==> s[r] == x && forall j :: i <= j < r ==> s[j] != x
    decreases |s| - i
  {
    if i == |s| then -1
    else if s[i] == x then i
    else IndexFrom(s, x, i + 1)
  }

  /** The first occurrence of `x` is at `i` when nothing before `i` equals it. */
  lemma IndexOfAt(s: seq<string>, x: string, i: nat)
    requires i < |s| && s[i] == x
    requires forall j :: 0 <= j < i ==> s[j] != x
    ensures IndexOf(s, x) == i
  {
  }

  /** `noteOrder.indexOf('A')` is `IndexA`. */
  lemma IndexOfA()
    ensures IndexOf(NoteOrder, "A") == IndexA
  {
    forall j | 0 <= j < 9 ensures NoteOrder[j] != "A" {
      assert NoteOrder[j][0] != 'A';
    }
    IndexOfAt(NoteOrder, "A", 9);
  }

  /**
   * `noteHz(note, octave)`: fails for a name outside `NoteOrder`; otherwise
   * the pitch `12 * (octave - 4) + (index - indexA)` semitones from A4.
   */
  function NoteHz(note: string, octave: int): (r: Result<Frequency, Error>)
    ensures r.Failure? <==> note !in NoteOrder
    ensures r.Failure? ==> r.error == InvalidNote(note)
    ensures r.Success? ==> r.value.EqualTempered?
    ensures r.Success? ==>
      var pitchClass := r.value.semitonesFromA4 - 12 * (octave - 4) + 9;
      0 <= pitchClass < 12 && NoteOrder[pitchClass] == note
  {
    var indexNote := IndexOf(NoteOrder, note);
    if indexNote == -1 then Failure(InvalidNote(note))
    else Success(EqualTempered(12 * (octave - DefaultOctave) + (indexNote - IndexA)))
  }

  /** `2^k` for an integer `k`. */
  function Pow2(k: int): (r: real)
    ensures r > 0.0
    decreases if k < 0 then -k else k
  {
    if k == 0 then 1.0
    else if k > 0 then 2.0 * Pow2(k - 1)
    else Pow2(k + 1) / 2.0
  }

  /** `2^k` doubles with each unit step of `k`, negative exponents included; with `Pow2(0) == 1` this is `2^k`. */
  lemma Pow2Double(k: int)
    ensures Pow2(0) == 1.0
    ensures Pow2(k + 1) == 2.0 * Pow2(k)
  {
    if k < 0 {
      assert Pow2(k) == Pow2(k + 1) / 2.0;
    }
  }

  /**
   * The exact value in Hz of a pitch, where it is rational: a literal
   * frequency, or an equal-tempered pitch a whole number of octaves from A4.
   */
  function ExactHz(f: Frequency): (r: Option<real>)
    ensures f.Hz? ==> r == Some(f.hz)
    ensures f.EqualTempered? ==> (r.Some? <==> f.semitonesFromA4 % 12 == 0)
    ensures f == EqualTempered(0) ==> r == Some(ReferenceFrequency)
    ensures r.Some? && f.EqualTempered? ==> r.value > 0.0
  {
    match f
    case Hz(hz) => Some(hz)
    case EqualTempered(n) =>
      if n % 12 == 0 then Some(ReferenceFrequency * Pow2(n / 12)) else None
  }

  /**
   * Twelve semitones up doubles an exact pitch: with `ExactHz(EqualTempered(0))
   * == 440`, this pins every whole-octave pitch to `440 * 2^(n/12)`.
   */
  lemma ExactHzOctave(n: int)
    requires n % 12 == 0
    ensures ExactHz(EqualTempered(n + 12)) == Some(2.0 * ExactHz(EqualTempered(n)).value)
  {
    assert (n + 12) / 12 == n / 12 + 1;
    Pow2Double(n / 12);
  }

  /** A4 is 440 Hz and, in the real-valued model, A5 is exactly 880 Hz. */
  lemma NoteHzA()
    ensures NoteHz("A", 4) == Success(EqualTempered(0))
    ensures ExactHz(NoteHz("A", 4).value) == Some(440.0)
    ensures NoteHz("A", 5) == Success(EqualTempered(12))
    ensures ExactHz(NoteHz("A", 5).value) == Some(880.0)
  {
    IndexOfA();
    NoteHzAt("A", 4, IndexA);
    NoteHzAt("A", 5, IndexA);
    assert Pow2(1) == 2.0 * Pow2(0);
  }

  /** The pitch of the note name at position `k` of `NoteOrder`. */
  lemma NoteHzAt(note: string, octave: int, k: int)
    requires IndexOf(NoteOrder, note) == k && k != -1
    ensures NoteHz(note, octave) == Success(EqualTempered(12 * (octave - 4) + k - 9))
  {
  }

  /** Middle C lies nine semitones below A4. */
  lemma NoteHzC()
    ensures NoteHz("C", 4) == Success(EqualTempered(-9))
  {
    assert IndexOf(NoteOrder, "C") == 0;
    NoteHzAt("C", 4, 0);
  }

  /** A name outside the twelve is rejected. */
  lemma NoteHzInvalid()
    ensures NoteHz("H", 4) == Failure(InvalidNote("H"))
  {
    forall i | 0 <= i < |NoteOrder| ensures NoteOrder[i] != "H" {
      assert NoteOrder[i][0] != 'H';
    }
    assert IndexOf(NoteOrder, "H") == -1;
  }

  /** Raising the octave by one raises the pitch by exactly twelve semitones. */
  lemma NoteHzOctave(note: string, octave: int)
    requires note in NoteOrder
    ensures NoteHz(note, octave + 1).value.semitonesFromA4
         == NoteHz(note, octave).value.semitonesFromA4 + 12
  {
  }

  // ---------------------------------------------------------------------
  // Durations
  // ---------------------------------------------------------------------

  /** `const { bpm = 120 } = settings` */
  function EffectiveBpm(settings: Settings): (bpm: real)
    ensures settings.bpm.None? ==> bpm == DefaultBpm
    ensures settings.bpm.Some? ==> bpm == settings.bpm.value
  {
    settings.bpm.GetOr(DefaultBpm)
  }

  /**
   * The length in seconds of a note or rest of `semiquavers` sixteenth notes
   * (default 1) at `bpm` quarter notes per minute.
   */
  function NoteSeconds(semiquavers: Option<real>, bpm: real): (d: real)
    requires bpm != 0.0
    ensures d * 4.0 * bpm == 60.0 * semiquavers.GetOr(DefaultSemiquavers)
  {
    semiquavers.GetOr(DefaultSemiquavers) / (4.0 * (bpm / 60.0))
  }

  /**
   * The duration of `cmd` is defined: no note or rest is timed at 0 bpm
   * (where the source divides by zero).
   */
  predicate DurationDefined(cmd: Command, settings: Settings)
    decreases cmd
  {
    match cmd
    case Bpm(b, cs) => AllDurationsDefined(cs, Settings(Some(b)))
    case PlayHz(_, _) => true
    case Off(_) => true
    case PlayNote(_, _, _) => EffectiveBpm(settings) != 0.0
    case Rest(_) => EffectiveBpm(settings) != 0.0
    case Vibrato(_, _, cs) => AllDurationsDefined(cs, settings)
    case Perturb(_, cs) => AllDurationsDefined(cs, settings)
    case PitchBend(_, cs) => AllDurationsDefined(cs, settings)
  }

  predicate AllDurationsDefined(cs: seq<Command>, settings: Settings)
    decreases cs
  {
    forall i :: 0 <= i < |cs| ==> DurationDefined(cs[i], settings)
  }

  /** `getCommandDuration(cmd, settings)`, exactly as written (hz/off return `ms` unscaled). */
  function CommandDuration(cmd: Command, settings: Settings): real
    requires DurationDefined(cmd, settings)
    decreases cmd
  {
    match cmd
    case Bpm(b, cs) => SumDurations(cs, Settings(Some(b)))
    case PlayHz(_, ms) => ms
    case Off(ms) => ms
    case PlayNote(_, _, sq) => NoteSeconds(sq, EffectiveBpm(settings))
    case Rest(sq) => NoteSeconds(sq, EffectiveBpm(settings))
    case Vibrato(_, _, cs) => SumDurations(cs, settings)
    case Perturb(_, cs) => SumDurations(cs, settings)
    case PitchBend(_, cs) => SumDurations(cs, settings)
  }

  /** `cs.reduce((cumulative, c) => cumulative + getCommandDuration(c, settings), 0)`, a left fold. */
  function SumDurations(cs: seq<Command>, settings: Settings): real
    requires AllDurationsDefined(cs, settings)
    decreases cs
  {
    if |cs| == 0 then 0.0
    else SumDurations(cs[..|cs| - 1], settings) + CommandDuration(cs[|cs| - 1], settings)
  }

  /** Durations add up over concatenated command lists. */
  lemma {:induction false} SumDurationsAppend(a: seq<Command>, b: seq<Command>, settings: Settings)
    requires AllDurationsDefined(a, settings) && AllDurationsDefined(b, settings)
    ensures AllDurationsDefined(a + b, settings)
    ensures SumDurations(a + b, settings) == SumDurations(a, settings) + SumDurations(b, settings)
  {
    assert AllDurationsDefined(a + b, settings) by {
      forall i | 0 <= i < |a + b| ensures DurationDefined((a + b)[i], settings) {
        if i < |a| { assert (a + b)[i] == a[i]; } else { assert (a + b)[i] == b[i - |a|]; }
      }
    }
    if |b| > 0 {
      var b' := b[..|b| - 1];
      assert (a + b)[..|a + b| - 1] == a + b';
      assert (a + b)[|a + b| - 1] == b[|b| - 1];
      assert AllDurationsDefined(b', settings) by {
        forall i | 0 <= i < |b'| ensures DurationDefined(b'[i], settings) { assert b'[i] == b[i]; }
      }
      SumDurationsAppend(a, b', settings);
    } else {
      assert a + b == a;
    }
  }

  /**
   * A bpm scope's duration is the sum of its children's durations under the
   * scope's own bpm, whatever the enclosing tempo, and so it is additive over
   * concatenated children.
   */
  lemma BpmScopeAdditive(bpm: real, a: seq<Command>, b: seq<Command>, outer: Settings, other: Settings)
    requires DurationDefined(Bpm(bpm, a), outer) && DurationDefined(Bpm(bpm, b), outer)
    ensures DurationDefined(Bpm(bpm, a + b), outer) && DurationDefined(Bpm(bpm, a + b), other)
    ensures CommandDuration(Bpm(bpm, a + b), outer)
         == CommandDuration(Bpm(bpm, a), outer) + CommandDuration(Bpm(bpm, b), outer)
    ensures CommandDuration(Bpm(bpm, a + b), outer) == CommandDuration(Bpm(bpm, a + b), other)
  {
    SumDurationsAppend(a, b, Settings(Some(bpm)));
  }

  /** A default note at the default tempo lasts 1/8 s; four semiquavers last 1/2 s. */
  lemma NoteDurationExamples(note: string, octave: Option<int>)
    ensures CommandDuration(PlayNote(note, octave, None), Settings(None)) == 0.125
    ensures CommandDuration(PlayNote(note, octave, Some(4.0)), Settings(None)) == 0.5
    ensures CommandDuration(Rest(None), Settings(Some(60.0))) == 0.25
  {
  }

  /**
   * Vibrato, bend and perturb scopes keep the tempo: each lasts as long as a
   * bpm scope at the enclosing tempo holding the same children.
   */
  lemma OrnamentScopesKeepTempo(cs: seq<Command>, settings: Settings, hz: real, semitones: real, other: Settings)
    requires DurationDefined(Bpm(EffectiveBpm(settings), cs), other)
    ensures DurationDefined(Vibrato(hz, semitones, cs), settings)
    ensures CommandDuration(Vibrato(hz, semitones, cs), settings) == CommandDuration(Bpm(EffectiveBpm(settings), cs), other)
    ensures CommandDuration(PitchBend(semitones, cs), settings) == CommandDuration(Bpm(EffectiveBpm(settings), cs), other)
    ensures CommandDuration(Perturb(semitones, cs), settings) == CommandDuration(Bpm(EffectiveBpm(settings), cs), other)
  {
    DefaultTempoSum(cs, Settings(Some(EffectiveBpm(settings))), settings);
  }

  /** Durations depend on the settings only through the effective bpm. */
  lemma {:induction false} DefaultTempo(cmd: Command, s1: Settings, s2: Settings)
    requires EffectiveBpm(s1) == EffectiveBpm(s2)
    requires DurationDefined(cmd, s1)
    ensures DurationDefined(cmd, s2)
    ensures CommandDuration(cmd, s1) == CommandDuration(cmd, s2)
    decreases cmd
  {
    match cmd
    case Bpm(_, _) =>
    case PlayHz(_, _) =>
    case Off(_) =>
    case PlayNote(_, _, _) =>
    case Rest(_) =>
    case Vibrato(_, _, cs) => DefaultTempoSum(cs, s1, s2);
    case Perturb(_, cs) => DefaultTempoSum(cs, s1, s2);
    case PitchBend(_, cs) => DefaultTempoSum(cs, s1, s2);
  }

  lemma {:induction false} DefaultTempoSum(cs: seq<Command>, s1: Settings, s2: Settings)
    requires EffectiveBpm(s1) == EffectiveBpm(s2)
    requires AllDurationsDefined(cs, s1)
    ensures AllDurationsDefined(cs, s2)
    ensures SumDurations(cs, s1) == SumDurations(cs, s2)
    decreases cs
  {
    forall i | 0 <= i < |cs| ensures DurationDefined(cs[i], s2) { DefaultTempo(cs[i], s1, s2); }
    if |cs| > 0 {
      var init := cs[..|cs| - 1];
      assert AllDurationsDefined(init, s1) by {
        forall i | 0 <= i < |init| ensures DurationDefined(init[i], s1) { assert init[i] == cs[i]; }
      }
      DefaultTempoSum(init, s1, s2);
      DefaultTempo(cs[|cs| - 1], s1, s2);
    }
  }

  /** Every time and tempo in a command is non-negative and every tempo positive. */
  predicate NonNegative(cmd: Command)
    decreases cmd
  {
    match cmd
    case Bpm(b, cs) => b > 0.0 && AllNonNegative(cs)
    case PlayHz(_, ms) => ms >= 0.0
    case Off(ms) => ms >= 0.0
    case PlayNote(_, _, sq) => sq.GetOr(DefaultSemiquavers) >= 0.0
    case Rest(sq) => sq.GetOr(DefaultSemiquavers) >= 0.0
    case Vibrato(_, _, cs) => AllNonNegative(cs)
    case Perturb(_, cs) => AllNonNegative(cs)
    case PitchBend(_, cs) => AllNonNegative(cs)
  }

  predicate AllNonNegative(cs: seq<Command>)
    decreases cs
  {
    forall i :: 0 <= i < |cs| ==> NonNegative(cs[i])
  }

  /** With non-negative times and tempos, every duration is non-negative. */
  lemma {:induction false} DurationNonNegative(cmd: Command, settings: Settings)
    requires NonNegative(cmd) && EffectiveBpm(settings) > 0.0
    ensures DurationDefined(cmd, settings)
    ensures CommandDuration(cmd, settings) >= 0.0
    decreases cmd
  {
    match cmd
    case Bpm(b, cs) => SumNonNegative(cs, Settings(Some(b)));
    case PlayHz(_, _) =>
    case Off(_) =>
    case PlayNote(_, _, sq) => NoteSecondsNonNegative(sq, EffectiveBpm(settings));
    case Rest(sq) => NoteSecondsNonNegative(sq, EffectiveBpm(settings));
    case Vibrato(_, _, cs) => SumNonNegative(cs, settings);
    case Perturb(_, cs) => SumNonNegative(cs, settings);
    case PitchBend(_, cs) => SumNonNegative(cs, settings);
  }

  lemma {:induction false} SumNonNegative(cs: seq<Command>, settings: Settings)
    requires AllNonNegative(cs) && EffectiveBpm(settings) > 0.0
    ensures AllDurationsDefined(cs, settings)
    ensures SumDurations(cs, settings) >= 0.0
    decreases cs
  {
    forall i | 0 <= i < |cs| ensures DurationDefined(cs[i], settings) { DurationNonNegative(cs[i], settings); }
    if |cs| > 0 {
      var init := cs[..|cs| - 1];
      assert AllNonNegative(init) by {
        forall i | 0 <= i < |init| ensures NonNegative(init[i]) { assert init[i] == cs[i]; }
      }
      SumNonNegative(init, settings);
      DurationNonNegative(cs[|cs| - 1], settings);
    }
  }

  lemma NoteSecondsNonNegative(sq: Option<real>, bpm: real)
    requires sq.GetOr(DefaultSemiquavers) >= 0.0 && bpm > 0.0
    ensures NoteSeconds(sq, bpm) >= 0.0
  {
  }

  /**
   * The duration the scheduler actually gives a command: as
   * `CommandDuration`, except that literal tones and silences last `ms / 1000`
   * seconds (the unit `playCommands` uses), not `ms`.
   */
  function CommandSeconds(cmd: Command, settings: Settings): real
    requires DurationDefined(cmd, settings)
    decreases cmd
  {
    match cmd
    case Bpm(b, cs) => SumSeconds(cs, Settings(Some(b)))
    case PlayHz(_, ms) => ms / 1000.0
    case Off(ms) => ms / 1000.0
    case PlayNote(_, _, sq) => NoteSeconds(sq, EffectiveBpm(settings))
    case Rest(sq) => NoteSeconds(sq, EffectiveBpm(settings))
    case Vibrato(_, _, cs) => SumSeconds(cs, settings)
    case Perturb(_, cs) => SumSeconds(cs, settings)
    case PitchBend(_, cs) => SumSeconds(cs, settings)
  }

  function SumSeconds(cs: seq<Command>, settings: Settings): real
    requires AllDurationsDefined(cs, settings)
    decreases cs
  {
    if |cs| == 0 then 0.0
    else SumSeconds(cs[..|cs| - 1], settings) + CommandSeconds(cs[|cs| - 1], settings)
  }

  /** The two durations agree on every command tree without literal tones or silences. */
  lemma {:induction false} SecondsAgreeWithoutLiteralTimes(cmd: Command, settings: Settings)
    requires DurationDefined(cmd, settings) && Every(cmd, NotLiteralTime)
    ensures CommandSeconds(cmd, settings) == CommandDuration(cmd, settings)
    decreases cmd
  {
    match cmd
    case Bpm(b, cs) => SumSecondsAgree(cs, Settings(Some(b)));
    case PlayHz(_, _) =>
    case Off(_) =>
    case PlayNote(_, _, _) =>
    case Rest(_) =>
    case Vibrato(_, _, cs) => SumSecondsAgree(cs, settings);
    case Perturb(_, cs) => SumSecondsAgree(cs, settings);
    case PitchBend(_, cs) => SumSecondsAgree(cs, settings);
  }

  lemma {:induction false} SumSecondsAgree(cs: seq<Command>, settings: Settings)
    requires AllDurationsDefined(cs, settings) && EveryIn(cs, NotLiteralTime)
    ensures SumSeconds(cs, settings) == SumDurations(cs, settings)
    decreases cs
  {
    if |cs| > 0 {
      var init := cs[..|cs| - 1];
      assert AllDurationsDefined(init, settings) && EveryIn(init, NotLiteralTime) by {
        forall i | 0 <= i < |init| ensures init[i] == cs[i] { }
      }
      SumSecondsAgree(init, settings);
      SecondsAgreeWithoutLiteralTimes(cs[|cs| - 1], settings);
    }
  }

  /** `cmd` is neither a literal tone (`hz`) nor a literal silence (`off`). */
  predicate NotLiteralTime(cmd: Command) {
    !cmd.PlayHz? && !cmd.Off?
  }

  /** `p` holds of `cmd` and of every command nested in it. */
  predicate Every(cmd: Command, p: Command -> bool)
    decreases cmd
  {
    p(cmd) &&
    match cmd
    case Bpm(_, cs) => EveryIn(cs, p)
    case Vibrato(_, _, cs) => EveryIn(cs, p)
    case Perturb(_, cs) => EveryIn(cs, p)
    case PitchBend(_, cs) => EveryIn(cs, p)
    case _ => true
  }

  predicate EveryIn(cs: seq<Command>, p: Command -> bool)
    decreases cs
  {
    forall i :: 0 <= i < |cs| ==> Every(cs[i], p)
  }
}
