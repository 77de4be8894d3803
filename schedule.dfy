/**
 * The tune interpreter `playCommands` of src/beeper.ts, run against a Beeper
 * sink that records the events it is asked to schedule.
 *
 * `Play` is the specification: the events a command list schedules, in
 * order, and the time at which it ends (or the error it throws).
 * `PlayCommands` is the imperative walk, proved to produce exactly that.
 */
module Schedule {
  import opened Wrappers
  import opened Tune

  /** The gap left before the end of every note so that notes sound separate. */
  const NoteGap: real := 0.01

  /** An automation request made to the sink. */
  datatype Event =
    | ToneAt(time: real, freq: Frequency, duration: real)
    | VibratoAt(startTime: real, rateHz: real, depthSemitones: real, duration: real)

  /** When an event takes effect. */
  function Start(e: Event): real {
    match e
    case ToneAt(t, _, _) => t
    case VibratoAt(t, _, _, _) => t
  }

  /** The events a walk schedules, and its end time or the error it stopped at. */
  datatype Run = Run(events: seq<Event>, end: Result<real, Error>)

  /**
   * No note or rest the walk reaches is timed at 0 bpm. The walk does not
   * enter bend and perturb scopes, so their children are unconstrained.
   */
  predicate PlayDefined(cmd: Command, bpm: real)
    decreases cmd
  {
    match cmd
    case Bpm(b, cs) => AllPlayDefined(cs, b)
    case PlayNote(_, _, _) => bpm != 0.0
    case Rest(_) => bpm != 0.0
    case Vibrato(_, _, cs) => AllPlayDefined(cs, bpm)
    case _ => true
  }

  predicate AllPlayDefined(cs: seq<Command>, bpm: real)
    decreases cs
  {
    forall i :: 0 <= i < |cs| ==> PlayDefined(cs[i], bpm)
  }

  /** One iteration of the walk: command `cmd` at cursor `t` under tempo `bpm`. */
  function PlayCommand(cmd: Command, t: real, bpm: real): Run
    requires PlayDefined(cmd, bpm)
    decreases cmd
  {
    match cmd
    case PlayNote(note, octave, sq) =>
      var duration := NoteSeconds(sq, bpm);
      (match NoteHz(note, octave.GetOr(DefaultOctave))
       case Failure(e) => Run([], Failure(e))
       case Success(f) => Run([ToneAt(t, f, duration - NoteGap)], Success(t + duration)))
    case Rest(sq) => Run([], Success(t + NoteSeconds(sq, bpm)))
    case Bpm(b, cs) => Play(cs, t, b)
    case PlayHz(hz, ms) => Run([ToneAt(t, Hz(hz), ms / 1000.0)], Success(t + ms / 1000.0))
    case Off(ms) => Run([], Success(t + ms / 1000.0))
    case Vibrato(hz, semitones, cs) =>
      var inner := Play(cs, t, bpm);
      (match inner.end
       case Failure(_) => inner
       case Success(end) => Run(inner.events + [VibratoAt(t, hz, semitones, end - t)], Success(end)))
    case Perturb(_, _) => Run([], Success(t))
    case PitchBend(_, _) => Run([], Success(t))
  }

  /** The walk over `cmds` from `startTime`, one command after another. */
  function Play(cmds: seq<Command>, startTime: real, bpm: real): Run
    requires AllPlayDefined(cmds, bpm)
    decreases cmds
  {
    if |cmds| == 0 then Run([], Success(startTime))
    else
      var before := Play(cmds[..|cmds| - 1], startTime, bpm);
      match before.end
      case Failure(_) => before
      case Success(t) =>
        var last := PlayCommand(cmds[|cmds| - 1], t, bpm);
        Run(before.events + last.events, last.end)
  }

  /** The Beeper sink, reduced to the record of what it was asked to schedule. */
  class Beeper {
    var events: seq<Event>

    constructor ()
      ensures events == []
    {
      events := [];
    }

    /** `toneAt(time, hz, duration)` */
    method ToneAt(time: real, freq: Frequency, duration: real)
      modifies this
      ensures events == old(events) + [Event.ToneAt(time, freq, duration)]
    {
      events := events + [Event.ToneAt(time, freq, duration)];
    }

    /** `vibratoAt(startTime, rateHz, depthSemitones, duration)` */
    method VibratoAt(startTime: real, rateHz: real, depthSemitones: real, duration: real)
      modifies this
      ensures events == old(events) + [Event.VibratoAt(startTime, rateHz, depthSemitones, duration)]
    {
      events := events + [Event.VibratoAt(startTime, rateHz, depthSemitones, duration)];
    }
  }

  /**
   * `playCommands(beeper, cmds, startTime, bpm)`: walks `cmds` with one
   * cursor, asks `beeper` for the events of `Play` in order, and returns the
   * end time; an invalid note name stops the walk with the events so far
   * already scheduled.
   */
  method PlayCommands(beeper: Beeper, cmds: seq<Command>, startTime: real, bpm: real)
    returns (endTime: Result<real, Error>)
    requires AllPlayDefined(cmds, bpm)
    modifies beeper
    ensures beeper.events == old(beeper.events) + Play(cmds, startTime, bpm).events
    ensures endTime == Play(cmds, startTime, bpm).end
    decreases cmds, 1
  {
    var refTime := startTime;
    for i := 0 to |cmds|
      invariant beeper.events == old(beeper.events) + Play(cmds[..i], startTime, bpm).events
      invariant Play(cmds[..i], startTime, bpm).end == Success(refTime)
    {
      PlayStep(cmds, i, startTime, bpm, refTime);
      var r := PlayCommandAt(beeper, cmds[i], refTime, bpm);
      if r.Failure? {
        PlayStopsAtFailure(cmds, i + 1, startTime, bpm);
        return r;
      }
      refTime := r.value;
    }
    assert cmds[..|cmds|] == cmds;
    return Success(refTime);
  }

  /** The body of the `for` loop of `playCommands`: the `switch` on one command. */
  method PlayCommandAt(beeper: Beeper, cmd: Command, refTime: real, bpm: real)
    returns (next: Result<real, Error>)
    requires PlayDefined(cmd, bpm)
    modifies beeper
    ensures beeper.events == old(beeper.events) + PlayCommand(cmd, refTime, bpm).events
    ensures next == PlayCommand(cmd, refTime, bpm).end
    decreases cmd, 0
  {
    match cmd
    case PlayNote(note, octave, sq) =>
      next := PlayNoteAt(beeper, note, octave, sq, refTime, bpm);
    case Rest(sq) =>
      next := Success(refTime + NoteSeconds(sq, bpm));
    case Bpm(b, cs) =>
      next := PlayCommands(beeper, cs, refTime, b);
    case PlayHz(hz, ms) =>
      beeper.ToneAt(refTime, Hz(hz), ms / 1000.0);
      next := Success(refTime + ms / 1000.0);
    case Off(ms) =>
      next := Success(refTime + ms / 1000.0);
    case Vibrato(hz, semitones, cs) =>
      var startTime := refTime;
      next := PlayCommands(beeper, cs, startTime, bpm);
      if next.Success? {
        beeper.VibratoAt(startTime, hz, semitones, next.value - startTime);
      }
    case Perturb(_, _) =>
      next := Success(refTime);
    case PitchBend(_, _) =>
      next := Success(refTime);
  }

  /** The `note` case: one tone at the cursor, or the throw of `noteHz`. */
  method PlayNoteAt(beeper: Beeper, note: string, octave: Option<int>, sq: Option<real>, refTime: real, bpm: real)
    returns (next: Result<real, Error>)
    requires bpm != 0.0
    modifies beeper
    ensures beeper.events == old(beeper.events) + PlayCommand(PlayNote(note, octave, sq), refTime, bpm).events
    ensures next == PlayCommand(PlayNote(note, octave, sq), refTime, bpm).end
  {
    var duration := NoteSeconds(sq, bpm);
    var hz := NoteHz(note, octave.GetOr(DefaultOctave));
    ghost var expected := PlayCommand(PlayNote(note, octave, sq), refTime, bpm);
    if hz.Failure? {
      assert expected == Run([], Failure(hz.error));
      return Failure(hz.error);
    }
    assert expected == Run([ToneAt(refTime, hz.value, duration - NoteGap)], Success(refTime + duration));
    beeper.ToneAt(refTime, hz.value, duration - NoteGap);
    next := Success(refTime + duration);
  }

  /** The walk over `cmds[..i + 1]` is the walk over `cmds[..i]` followed by `cmds[i]`. */
  lemma PlayStep(cmds: seq<Command>, i: nat, startTime: real, bpm: real, t: real)
    requires AllPlayDefined(cmds, bpm) && i < |cmds|
    requires Play(cmds[..i], startTime, bpm).end == Success(t)
    ensures AllPlayDefined(cmds[..i + 1], bpm) && PlayDefined(cmds[i], bpm)
    ensures Play(cmds[..i + 1], startTime, bpm)
         == Run(Play(cmds[..i], startTime, bpm).events + PlayCommand(cmds[i], t, bpm).events,
                PlayCommand(cmds[i], t, bpm).end)
  {
    assert cmds[..i + 1][..i] == cmds[..i];
    assert AllPlayDefined(cmds[..i + 1], bpm) by {
      forall k | 0 <= k < i + 1 ensures cmds[..i + 1][k] == cmds[k] { }
    }
  }

  /** Once a prefix of the walk fails, the whole walk ends the same way. */
  lemma {:induction false} PlayStopsAtFailure(cmds: seq<Command>, k: nat, startTime: real, bpm: real)
    requires AllPlayDefined(cmds, bpm) && k <= |cmds|
    requires Play(cmds[..k], startTime, bpm).end.Failure?
    ensures Play(cmds, startTime, bpm) == Play(cmds[..k], startTime, bpm)
    decreases |cmds| - k
  {
    if k < |cmds| {
      var pre := cmds[..k + 1];
      assert pre[..k] == cmds[..k];
      assert AllPlayDefined(pre, bpm) by {
        forall j | 0 <= j < |pre| ensures pre[j] == cmds[j] { }
      }
      PlayStopsAtFailure(cmds, k + 1, startTime, bpm);
    } else {
      assert cmds[..k] == cmds;
    }
  }

  /** A one-command list is walked as that command alone. */
  lemma PlaySingle(cmd: Command, t: real, bpm: real)
    requires PlayDefined(cmd, bpm)
    ensures AllPlayDefined([cmd], bpm)
    ensures Play([cmd], t, bpm) == PlayCommand(cmd, t, bpm)
  {
    assert [cmd][..0] == [];
  }

  /**
   * A note schedules exactly one tone, at the cursor, at the note's pitch
   * (octave 4 by default), lasting the note's duration less the note gap, and
   * advances the cursor by exactly that duration; a name `NoteHz` rejects
   * (one outside `NoteOrder`) schedules nothing and throws.
   */
  lemma NoteSchedulesOneTone(note: string, octave: Option<int>, sq: Option<real>, t: real, bpm: real)
    requires bpm != 0.0
    ensures AllPlayDefined([PlayNote(note, octave, sq)], bpm)
    ensures NoteHz(note, octave.GetOr(DefaultOctave)).Success? ==>
      Play([PlayNote(note, octave, sq)], t, bpm)
        == Run([ToneAt(t, NoteHz(note, octave.GetOr(DefaultOctave)).value, NoteSeconds(sq, bpm) - NoteGap)],
               Success(t + NoteSeconds(sq, bpm)))
    ensures NoteHz(note, octave.GetOr(DefaultOctave)).Failure? ==>
      Play([PlayNote(note, octave, sq)], t, bpm) == Run([], Failure(InvalidNote(note)))
  {
    PlaySingle(PlayNote(note, octave, sq), t, bpm);
  }

  /** An `hz` command schedules one tone of `ms / 1000` seconds and advances by that much. */
  lemma HzSchedulesOneTone(hz: real, ms: real, t: real, bpm: real)
    ensures AllPlayDefined([PlayHz(hz, ms)], bpm)
    ensures Play([PlayHz(hz, ms)], t, bpm) == Run([ToneAt(t, Hz(hz), ms / 1000.0)], Success(t + ms / 1000.0))
  {
    PlaySingle(PlayHz(hz, ms), t, bpm);
  }

  /**
   * Rests and silences schedule nothing and only advance the cursor; bend and
   * perturb scopes schedule nothing, leave the cursor where it was and are not
   * entered at all, whatever they contain.
   */
  lemma SilentCommands(sq: Option<real>, ms: real, semitones: real, cs: seq<Command>, t: real, bpm: real)
    requires bpm != 0.0
    ensures AllPlayDefined([Rest(sq)], bpm) && AllPlayDefined([Off(ms)], bpm)
    ensures AllPlayDefined([PitchBend(semitones, cs)], bpm) && AllPlayDefined([Perturb(semitones, cs)], bpm)
    ensures Play([Rest(sq)], t, bpm) == Run([], Success(t + NoteSeconds(sq, bpm)))
    ensures Play([Off(ms)], t, bpm) == Run([], Success(t + ms / 1000.0))
    ensures Play([PitchBend(semitones, cs)], t, bpm) == Run([], Success(t))
    ensures Play([Perturb(semitones, cs)], t, bpm) == Run([], Success(t))
  {
    PlaySingle(Rest(sq), t, bpm);
    PlaySingle(Off(ms), t, bpm);
    PlaySingle(PitchBend(semitones, cs), t, bpm);
    PlaySingle(Perturb(semitones, cs), t, bpm);
  }

  /**
   * A vibrato scope first schedules its children from the scope's start at
   * the unchanged tempo, then one vibrato envelope from that start spanning
   * exactly the time the children took.
   */
  lemma VibratoAfterChildren(hz: real, semitones: real, cs: seq<Command>, t: real, bpm: real)
    requires AllPlayDefined(cs, bpm)
    ensures AllPlayDefined([Vibrato(hz, semitones, cs)], bpm)
    ensures Play(cs, t, bpm).end.Success? ==>
      Play([Vibrato(hz, semitones, cs)], t, bpm)
        == Run(Play(cs, t, bpm).events + [VibratoAt(t, hz, semitones, Play(cs, t, bpm).end.value - t)],
               Play(cs, t, bpm).end)
    ensures Play(cs, t, bpm).end.Failure? ==> Play([Vibrato(hz, semitones, cs)], t, bpm) == Play(cs, t, bpm)
  {
    PlaySingle(Vibrato(hz, semitones, cs), t, bpm);
  }

  /** The empty list schedules nothing and ends where it starts. */
  lemma PlayEmpty(t: real, bpm: real)
    ensures Play([], t, bpm) == Run([], Success(t))
  {
  }

  /**
   * Siblings never overlap: a concatenated list is walked as its first part,
   * then its second part from where the first ended (unless the first threw).
   */
  lemma {:induction false} PlayAppend(a: seq<Command>, b: seq<Command>, t: real, bpm: real)
    requires AllPlayDefined(a, bpm) && AllPlayDefined(b, bpm)
    ensures AllPlayDefined(a + b, bpm)
    ensures Play(a, t, bpm).end.Failure? ==> Play(a + b, t, bpm) == Play(a, t, bpm)
    ensures Play(a, t, bpm).end.Success? ==>
      Play(a + b, t, bpm)
        == Run(Play(a, t, bpm).events + Play(b, Play(a, t, bpm).end.value, bpm).events,
               Play(b, Play(a, t, bpm).end.value, bpm).end)
    decreases |b|
  {
    assert AllPlayDefined(a + b, bpm) by {
      forall i | 0 <= i < |a + b| ensures PlayDefined((a + b)[i], bpm) {
        if i < |a| { assert (a + b)[i] == a[i]; } else { assert (a + b)[i] == b[i - |a|]; }
      }
    }
    if |b| == 0 {
      assert a + b == a;
    } else {
      var b' := b[..|b| - 1];
      assert (a + b)[..|a + b| - 1] == a + b';
      assert (a + b)[|a + b| - 1] == b[|b| - 1];
      assert AllPlayDefined(b', bpm) by {
        forall i | 0 <= i < |b'| ensures b'[i] == b[i] { }
      }
      PlayAppend(a, b', t, bpm);
    }
  }

  /**
   * With non-negative times and a positive tempo the cursor never goes
   * back: every event starts at or after `startTime`, and, when the walk
   * completes, at or before its end, which is itself at or after `startTime`.
   */
  lemma {:induction false} PlayBounds(cmds: seq<Command>, startTime: real, bpm: real)
    requires bpm > 0.0 && AllNonNegative(cmds)
    ensures AllPlayDefined(cmds, bpm)
    ensures StartsWithin(Play(cmds, startTime, bpm), startTime)
    decreases cmds, 1
  {
    forall i | 0 <= i < |cmds| ensures PlayDefined(cmds[i], bpm) {
      PlayCommandBounds(cmds[i], startTime, bpm);
    }
    if |cmds| > 0 {
      var init := cmds[..|cmds| - 1];
      assert AllNonNegative(init) by {
        forall i | 0 <= i < |init| ensures init[i] == cmds[i] { }
      }
      PlayBounds(init, startTime, bpm);
      var before := Play(init, startTime, bpm);
      if before.end.Success? {
        var last := cmds[|cmds| - 1];
        PlayCommandBounds(last, before.end.value, bpm);
        var r := Play(cmds, startTime, bpm);
        var step := PlayCommand(last, before.end.value, bpm);
        assert r.events == before.events + step.events;
        forall k | 0 <= k < |r.events|
          ensures startTime <= Start(r.events[k])
          ensures r.end.Success? ==> Start(r.events[k]) <= r.end.value
        {
          if k >= |before.events| { assert r.events[k] == step.events[k - |before.events|]; }
        }
      }
    }
  }

  lemma {:induction false} PlayCommandBounds(cmd: Command, t: real, bpm: real)
    requires bpm > 0.0 && NonNegative(cmd)
    ensures PlayDefined(cmd, bpm)
    ensures StartsWithin(PlayCommand(cmd, t, bpm), t)
    decreases cmd, 0
  {
    match cmd
    case Bpm(b, cs) => PlayBounds(cs, t, b);
    case Vibrato(hz, semitones, cs) =>
      PlayBounds(cs, t, bpm);
      var inner := Play(cs, t, bpm);
      if inner.end.Success? {
        var r := PlayCommand(cmd, t, bpm);
        assert r.events == inner.events + [VibratoAt(t, hz, semitones, inner.end.value - t)];
        assert forall k :: 0 <= k < |inner.events| ==> r.events[k] == inner.events[k];
      }
    case PlayNote(_, _, sq) => NoteSecondsNonNegative(sq, bpm);
    case Rest(sq) => NoteSecondsNonNegative(sq, bpm);
    case PlayHz(_, _) =>
    case Off(_) =>
    case Perturb(_, _) =>
    case PitchBend(_, _) =>
  }

  /**
   * Every event of `r` starts at or after `t`, and if `r` completed, `t` is at
   * or before its end and so is every event's start.
   */
  predicate StartsWithin(r: Run, t: real) {
    && (forall k :: 0 <= k < |r.events| ==> t <= Start(r.events[k]))
    && (r.end.Success? ==> t <= r.end.value && forall k :: 0 <= k < |r.events| ==> Start(r.events[k]) <= r.end.value)
  }

  /** `cmd` is neither a pitch bend nor a perturb scope, both of which the walk skips. */
  predicate NotSkipped(cmd: Command) {
    !cmd.PitchBend? && !cmd.Perturb?
  }

  /**
   * A walk that enters every scope ends at `startTime` plus the total
   * duration of the list at the walk's tempo, counting literal tones and
   * silences in seconds.
   */
  lemma {:induction false} PlayEndIsSeconds(cmds: seq<Command>, startTime: real, bpm: real)
    requires AllPlayDefined(cmds, bpm) && EveryIn(cmds, NotSkipped)
    ensures AllDurationsDefined(cmds, Settings(Some(bpm)))
    ensures Play(cmds, startTime, bpm).end.Success? ==>
      Play(cmds, startTime, bpm).end.value == startTime + SumSeconds(cmds, Settings(Some(bpm)))
    decreases cmds, 1
  {
    forall i | 0 <= i < |cmds| ensures DurationDefined(cmds[i], Settings(Some(bpm))) {
      PlayCommandEndIsSeconds(cmds[i], startTime, bpm);
    }
    if |cmds| > 0 {
      var init := cmds[..|cmds| - 1];
      assert AllPlayDefined(init, bpm) && EveryIn(init, NotSkipped) by {
        forall i | 0 <= i < |init| ensures init[i] == cmds[i] { }
      }
      PlayEndIsSeconds(init, startTime, bpm);
      var before := Play(init, startTime, bpm);
      if before.end.Success? {
        PlayCommandEndIsSeconds(cmds[|cmds| - 1], before.end.value, bpm);
      }
    }
  }

  lemma {:induction false} PlayCommandEndIsSeconds(cmd: Command, t: real, bpm: real)
    requires PlayDefined(cmd, bpm) && Every(cmd, NotSkipped)
    ensures DurationDefined(cmd, Settings(Some(bpm)))
    ensures PlayCommand(cmd, t, bpm).end.Success? ==>
      PlayCommand(cmd, t, bpm).end.value == t + CommandSeconds(cmd, Settings(Some(bpm)))
    decreases cmd, 0
  {
    match cmd
    case Bpm(b, cs) => PlayEndIsSeconds(cs, t, b);
    case Vibrato(_, _, cs) => PlayEndIsSeconds(cs, t, bpm);
    case PlayNote(_, _, _) =>
    case Rest(_) =>
    case PlayHz(_, _) =>
    case Off(_) =>
  }

  /**
   * For lists of notes, rests, bpm and vibrato scopes only, the walk ends at
   * `startTime` plus `getCommandDuration` summed at the walk's tempo.
   */
  lemma PlayEndIsDuration(cmds: seq<Command>, startTime: real, bpm: real)
    requires AllPlayDefined(cmds, bpm) && EveryIn(cmds, NotSkipped) && EveryIn(cmds, NotLiteralTime)
    ensures AllDurationsDefined(cmds, Settings(Some(bpm)))
    ensures Play(cmds, startTime, bpm).end.Success? ==>
      Play(cmds, startTime, bpm).end.value == startTime + SumDurations(cmds, Settings(Some(bpm)))
  {
    PlayEndIsSeconds(cmds, startTime, bpm);
    SumSecondsAgree(cmds, Settings(Some(bpm)));
  }

  /** An unknown note name reached by the walk. */
  predicate ReachesInvalidNote(cmd: Command)
    decreases cmd
  {
    match cmd
    case PlayNote(note, _, _) => note !in NoteOrder
    case Bpm(_, cs) => exists i :: 0 <= i < |cs| && ReachesInvalidNote(cs[i])
    case Vibrato(_, _, cs) => exists i :: 0 <= i < |cs| && ReachesInvalidNote(cs[i])
    case _ => false
  }

  /**
   * The walk throws exactly when it reaches an unknown note name, and then
   * with that error.
   */
  lemma {:induction false} PlayFailsExactlyOnInvalidNote(cmds: seq<Command>, startTime: real, bpm: real)
    requires AllPlayDefined(cmds, bpm)
    ensures Play(cmds, startTime, bpm).end.Failure?
        <==> exists i :: 0 <= i < |cmds| && ReachesInvalidNote(cmds[i])
    ensures Play(cmds, startTime, bpm).end.Failure? ==> Play(cmds, startTime, bpm).end.error.InvalidNote?
    decreases cmds, 1
  {
    if |cmds| > 0 {
      var init := cmds[..|cmds| - 1];
      var last := cmds[|cmds| - 1];
      assert AllPlayDefined(init, bpm) by {
        forall i | 0 <= i < |init| ensures init[i] == cmds[i] { }
      }
      PlayFailsExactlyOnInvalidNote(init, startTime, bpm);
      assert cmds == init + [last];
      ReachesSplit(cmds, init, last);
      var before := Play(init, startTime, bpm);
      if before.end.Success? {
        PlayCommandFailsExactlyOnInvalidNote(last, before.end.value, bpm);
      }
    }
  }

  /** A list reaches an unknown note exactly when its prefix or its last command does. */
  lemma ReachesSplit(cmds: seq<Command>, init: seq<Command>, last: Command)
    requires cmds == init + [last]
    ensures (exists i :: 0 <= i < |cmds| && ReachesInvalidNote(cmds[i]))
        <==> (exists i :: 0 <= i < |init| && ReachesInvalidNote(init[i])) || ReachesInvalidNote(last)
  {
    if exists i :: 0 <= i < |cmds| && ReachesInvalidNote(cmds[i]) {
      var i :| 0 <= i < |cmds| && ReachesInvalidNote(cmds[i]);
      if i < |init| { assert init[i] == cmds[i]; } else { assert cmds[i] == last; }
    }
    if exists i :: 0 <= i < |init| && ReachesInvalidNote(init[i]) {
      var i :| 0 <= i < |init| && ReachesInvalidNote(init[i]);
      assert cmds[i] == init[i];
    }
    if ReachesInvalidNote(last) {
      assert cmds[|cmds| - 1] == last;
    }
  }

  lemma {:induction false} PlayCommandFailsExactlyOnInvalidNote(cmd: Command, t: real, bpm: real)
    requires PlayDefined(cmd, bpm)
    ensures PlayCommand(cmd, t, bpm).end.Failure? <==> ReachesInvalidNote(cmd)
    ensures PlayCommand(cmd, t, bpm).end.Failure? ==> PlayCommand(cmd, t, bpm).end.error.InvalidNote?
    decreases cmd, 0
  {
    match cmd
    case Bpm(b, cs) => PlayFailsExactlyOnInvalidNote(cs, t, b);
    case Vibrato(_, _, cs) => PlayFailsExactlyOnInvalidNote(cs, t, bpm);
    case PlayNote(_, _, _) =>
    case Rest(_) =>
    case PlayHz(_, _) =>
    case Off(_) =>
    case Perturb(_, _) =>
    case PitchBend(_, _) =>
  }

  /** One A4 of four semiquavers at 60 bpm, started at 0: one 440 Hz tone of 0.99 s, ending at 1.0. */
  lemma QuarterNoteAt60(t: real)
    ensures AllPlayDefined([PlayNote("A", Some(4), Some(4.0))], 60.0)
    ensures Play([PlayNote("A", Some(4), Some(4.0))], t, 60.0)
         == Run([ToneAt(t, EqualTempered(0), 0.99)], Success(t + 1.0))
  {
    NoteHzA();
    assert NoteSeconds(Some(4.0), 60.0) == 1.0;
    NoteSchedulesOneTone("A", Some(4), Some(4.0), t, 60.0);
  }

  /**
   * The same note inside a 60 bpm scope of a walk at the default tempo: the
   * scope's tempo applies, and the tone is A4, 440 Hz exactly.
   */
  lemma QuarterNoteInBpmScope()
    ensures AllPlayDefined([Bpm(60.0, [PlayNote("A", Some(4), Some(4.0))])], DefaultBpm)
    ensures Play([Bpm(60.0, [PlayNote("A", Some(4), Some(4.0))])], 0.0, DefaultBpm)
         == Run([ToneAt(0.0, EqualTempered(0), 0.99)], Success(1.0))
    ensures ExactHz(EqualTempered(0)) == Some(440.0)
  {
    QuarterNoteAt60(0.0);
    PlaySingle(Bpm(60.0, [PlayNote("A", Some(4), Some(4.0))]), 0.0, DefaultBpm);
  }

  /**
   * `getCommandDuration` counts an `off` of 1000 ms as 1000, while the walk
   * advances by 1 second for it; the corrected duration agrees with the walk.
   */
  lemma DurationUnitMismatch()
    ensures AllDurationsDefined([Off(1000.0)], Settings(Some(120.0)))
    ensures Play([Off(1000.0)], 0.0, 120.0).end == Success(1.0)
    ensures SumDurations([Off(1000.0)], Settings(Some(120.0))) == 1000.0
    ensures SumSeconds([Off(1000.0)], Settings(Some(120.0))) == 1.0
  {
    PlaySingle(Off(1000.0), 0.0, 120.0);
    assert [Off(1000.0)][..0] == [];
  }
}
