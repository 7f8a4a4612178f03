/**
 * The engine-phase poller: one loop iteration is a pure step over the
 * recorded phase state, and the whole loop is a fold over the samples it
 * sees, one per polling interval.
 *
 * Times are integers in milliseconds. The initial `DateTime.MinValue` of the
 * last-cue timestamp is `None`: no cue has fired yet.
 */
module PhaseMonitor {
  import opened Wrappers
  import opened SoundLibrary

  const PhaseSoundCooldown: int := 300
  /** Highest fixed-phase index that still earns a cue. */
  const MaxCueIndex: int := 40

  /** The index recorded for "no progress object yet" (`?? -1`). */
  const NoProgress: int := -1

  datatype PhaseState = PhaseState(lastFixedPhaseIndex: int, lastPhaseSoundTime: Option<int>)

  const InitialPhaseState: PhaseState := PhaseState(NoProgress, None)

  /**
   * What one poll sees: the engine's progress index (`None` when the progress
   * object is null, or the engine does not exist yet), the clock, and the
   * listing of the phase folder with its random index.
   */
  datatype Sample = Sample(progress: Option<int>, now: int, phaseFiles: Scan)

  /** A dispatched phase cue: the index that triggered it, when, and the file. */
  datatype Cue = Cue(index: int, at: int, file: string)

  datatype Tick = Tick(next: PhaseState, cue: Option<Cue>)

  /** The polled index, `NoProgress` for a null progress object. */
  function FixedPhaseIndex(progress: Option<int>): (index: int)
  {
    match progress
    case None => NoProgress
    case Some(i) => i
  }

  /** An index worth a cue: new, and within [0, MaxCueIndex]. */
  predicate Qualifies(st: PhaseState, index: int)
  {
    index != st.lastFixedPhaseIndex && 0 <= index <= MaxCueIndex
  }

  predicate CooldownElapsed(last: Option<int>, now: int)
  {
    last.None? || now - last.value >= PhaseSoundCooldown
  }

  predicate HasPhaseFile(s: Sample)
  {
    Concat(s.phaseFiles.perExtension) != []
  }

  /** One iteration of the poll loop, the engine present. */
  function PollStep(st: PhaseState, s: Sample): (t: Tick)
    requires ValidScan(s.phaseFiles)
    ensures var index := FixedPhaseIndex(s.progress);
      && (!Qualifies(st, index) ==> t == Tick(st, None))
      && (Qualifies(st, index) ==> t.next.lastFixedPhaseIndex == index)
      && (t.cue.Some? <==> Qualifies(st, index) && CooldownElapsed(st.lastPhaseSoundTime, s.now) && HasPhaseFile(s))
      && (t.cue.Some? ==>
            && t.cue.value.index == index && t.cue.value.at == s.now
            && t.cue.value.file in Concat(s.phaseFiles.perExtension)
            && t.next.lastPhaseSoundTime == Some(s.now))
      && (t.cue.None? ==> t.next.lastPhaseSoundTime == st.lastPhaseSoundTime)
  {
    var index := FixedPhaseIndex(s.progress);
    if !Qualifies(st, index) then Tick(st, None)
    else if !CooldownElapsed(st.lastPhaseSoundTime, s.now) then
      Tick(st.(lastFixedPhaseIndex := index), None)
    else
      match GetRandomAudioFile(CategoryDir(Phase), s.phaseFiles)
      case Ok(file) =>
        var files := Concat(s.phaseFiles.perExtension);
        assert file == files[s.phaseFiles.pick];
        Tick(PhaseState(index, Some(s.now)), Some(Cue(index, s.now, file)))
      case Err(_) => Tick(st.(lastFixedPhaseIndex := index), None)
  }

  /** A null progress value, a negative index or one above the ceiling never
      dispatches a cue and leaves the phase state as it was. */
  lemma OutOfRangeNeverFires(st: PhaseState, s: Sample)
    requires ValidScan(s.phaseFiles)
    requires s.progress.None? || s.progress.value < 0 || s.progress.value > MaxCueIndex
    ensures PollStep(st, s) == Tick(st, None)
  {
  }

  /** A repeated index changes nothing either. */
  lemma RepeatedIndexIsIgnored(st: PhaseState, s: Sample)
    requires ValidScan(s.phaseFiles)
    requires s.progress == Some(st.lastFixedPhaseIndex)
    ensures PollStep(st, s) == Tick(st, None)
  {
  }

  /** Before any cue has fired, the first qualifying index fires whenever the
      phase folder has a file, whatever the clock reads. */
  lemma FirstQualifyingChangeFires(st: PhaseState, s: Sample)
    requires ValidScan(s.phaseFiles)
    requires st.lastPhaseSoundTime.None?
    requires Qualifies(st, FixedPhaseIndex(s.progress)) && HasPhaseFile(s)
    ensures PollStep(st, s).cue.Some?
  {
  }

  /** A qualifying index is recorded even when its cue is swallowed by the
      cooldown or by an empty phase folder; the cue clock then stays put. */
  lemma SuppressedChangeIsRecorded(st: PhaseState, s: Sample)
    requires ValidScan(s.phaseFiles)
    requires Qualifies(st, FixedPhaseIndex(s.progress))
    requires !CooldownElapsed(st.lastPhaseSoundTime, s.now) || !HasPhaseFile(s)
    ensures PollStep(st, s) == Tick(st.(lastFixedPhaseIndex := FixedPhaseIndex(s.progress)), None)
  {
  }

  predicate ValidSamples(samples: seq<Sample>)
  {
    forall i :: 0 <= i < |samples| ==> ValidScan(samples[i].phaseFiles)
  }

  datatype MonitorRun = MonitorRun(final: PhaseState, cues: seq<Cue>)

  /** The poll loop over a sequence of samples: the state threads through
      every step and the dispatched cues are collected in order. */
  function Monitor(st: PhaseState, samples: seq<Sample>): (r: MonitorRun)
    requires ValidSamples(samples)
    ensures |r.cues| <= |samples|
    decreases |samples|
  {
    if samples == [] then MonitorRun(st, [])
    else
      var t := PollStep(st, samples[0]);
      var rest := Monitor(t.next, samples[1..]);
      MonitorRun(rest.final, StepCues(t) + rest.cues)
  }

  /** Over a whole run, only indices within [0, MaxCueIndex] ever fire. */
  lemma {:induction false} CueIndicesInRange(st: PhaseState, samples: seq<Sample>)
    requires ValidSamples(samples)
    ensures forall i :: 0 <= i < |Monitor(st, samples).cues| ==> 0 <= Monitor(st, samples).cues[i].index <= MaxCueIndex
    decreases |samples|
  {
    if samples != [] {
      var t := PollStep(st, samples[0]);
      CueIndicesInRange(t.next, samples[1..]);
      var rest := Monitor(t.next, samples[1..]).cues;
      var cues := Monitor(st, samples).cues;
      assert cues == StepCues(t) + rest;
      forall i | |StepCues(t)| <= i < |cues|
        ensures 0 <= cues[i].index <= MaxCueIndex
      {
        assert cues[i] == rest[i - |StepCues(t)|];
      }
    }
  }

  /** After a run the cue clock holds the time of its last cue, or is as it
      was before the run when no cue fired. */
  lemma {:induction false} ClockTracksLastCue(st: PhaseState, samples: seq<Sample>)
    requires ValidSamples(samples)
    ensures var r := Monitor(st, samples);
      && (r.cues == [] ==> r.final.lastPhaseSoundTime == st.lastPhaseSoundTime)
      && (r.cues != [] ==> r.final.lastPhaseSoundTime == Some(r.cues[|r.cues| - 1].at))
    decreases |samples|
  {
    if samples != [] {
      var t := PollStep(st, samples[0]);
      ClockTracksLastCue(t.next, samples[1..]);
    }
  }

  /** Cues spaced by the cooldown: each comes at least the cooldown after
      `last` (when there is one) and after every earlier cue. */
  ghost predicate Spaced(last: Option<int>, cues: seq<Cue>)
  {
    && (last.Some? ==> forall i :: 0 <= i < |cues| ==> cues[i].at - last.value >= PhaseSoundCooldown)
    && (forall i, j :: 0 <= i < j < |cues| ==> cues[j].at - cues[i].at >= PhaseSoundCooldown)
  }

  /** Any two cues of a poll run are at least the cooldown apart, and the
      first is at least the cooldown after the last cue before the run. */
  lemma {:induction false} CueSpacing(st: PhaseState, samples: seq<Sample>)
    requires ValidSamples(samples)
    ensures Spaced(st.lastPhaseSoundTime, Monitor(st, samples).cues)
    decreases |samples|
  {
    if samples != [] {
      var t := PollStep(st, samples[0]);
      CueSpacing(t.next, samples[1..]);
      var rest := Monitor(t.next, samples[1..]).cues;
      if t.cue.Some? {
        var c := t.cue.value;
        var cues := [c] + rest;
        assert Monitor(st, samples).cues == cues;
        forall i, j | 0 <= i < j < |cues|
          ensures cues[j].at - cues[i].at >= PhaseSoundCooldown
        {
          assert cues[j] == rest[j - 1];
          if i > 0 {
            assert cues[i] == rest[i - 1];
          }
        }
        if st.lastPhaseSoundTime.Some? {
          forall i | 0 <= i < |cues|
            ensures cues[i].at - st.lastPhaseSoundTime.value >= PhaseSoundCooldown
          {
            if i > 0 {
              assert cues[i] == rest[i - 1];
            }
          }
        }
      } else {
        assert Monitor(st, samples).cues == rest;
      }
    }
  }

  /** Every cue of a run was dispatched by a sample taken at that moment
      whose progress was exactly the cue's index. */
  lemma {:induction false} CuesComeFromSamples(st: PhaseState, samples: seq<Sample>)
    requires ValidSamples(samples)
    ensures forall c :: c in Monitor(st, samples).cues ==>
              exists k :: 0 <= k < |samples| && samples[k].progress == Some(c.index) && samples[k].now == c.at
    decreases |samples|
  {
    if samples != [] {
      var t := PollStep(st, samples[0]);
      CuesComeFromSamples(t.next, samples[1..]);
      var rest := Monitor(t.next, samples[1..]).cues;
      forall c | c in Monitor(st, samples).cues
        ensures exists k :: 0 <= k < |samples| && samples[k].progress == Some(c.index) && samples[k].now == c.at
      {
        if c in rest {
          var k :| 0 <= k < |samples[1..]| && samples[1..][k].progress == Some(c.index) && samples[1..][k].now == c.at;
          assert samples[k + 1] == samples[1..][k];
        } else {
          assert t.cue == Some(c);
          assert samples[0].progress == Some(c.index);
        }
      }
    }
  }

  /** The cues one step contributes. */
  function StepCues(t: Tick): (cues: seq<Cue>)
  {
    if t.cue.Some? then [t.cue.value] else []
  }

  /** One unfolding of the fold, with the cues collected so far in front. */
  lemma MonitorStep(st: PhaseState, samples: seq<Sample>, done: seq<Cue>)
    requires ValidSamples(samples) && samples != []
    ensures ValidSamples(samples[1..])
    ensures var t := PollStep(st, samples[0]);
      var tail := Monitor(t.next, samples[1..]);
      && Monitor(st, samples).final == tail.final
      && done + Monitor(st, samples).cues == (done + StepCues(t)) + tail.cues
  {
    var t := PollStep(st, samples[0]);
    var tail := Monitor(t.next, samples[1..]);
    assert done + (StepCues(t) + tail.cues) == (done + StepCues(t)) + tail.cues;
  }

  /**
   * The poll loop as written: iterate while samples remain (the monitoring
   * flag is still set), threading the state and collecting dispatched cues.
   */
  method MonitorLoop(st: PhaseState, samples: seq<Sample>) returns (final: PhaseState, cues: seq<Cue>)
    requires ValidSamples(samples)
    ensures MonitorRun(final, cues) == Monitor(st, samples)
  {
    final, cues := st, [];
    var pending := samples;
    while pending != []
      invariant ValidSamples(pending)
      invariant Monitor(st, samples).final == Monitor(final, pending).final
      invariant Monitor(st, samples).cues == cues + Monitor(final, pending).cues
      decreases |pending|
    {
      MonitorStep(final, pending, cues);
      var t := PollStep(final, pending[0]);
      cues := cues + StepCues(t);
      final := t.next;
      pending := pending[1..];
    }
  }
}
