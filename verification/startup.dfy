/**
 * The entry point and the orchestration around it: `Patch` initialises the
 * backend and starts the launch sound; afterwards the sequencer reacts to
 * events - one iteration of the phase poll loop, a stream playing to its
 * end, and the two halves of the engine's ready handler (the awaited
 * crossfade to "done", then clearing the monitoring flag).
 */
module Startup {
  import opened Wrappers
  import opened SoundLibrary
  import opened AudioBackend
  import opened PhaseMonitor
  import opened Ambient

  /** `monitoring` is true while the phase poll loop runs. */
  datatype Sequencer = Sequencer(world: World, phase: PhaseState, monitoring: bool)

  datatype PatchResult = PatchResult(sequencer: Sequencer, ok: bool)

  /**
   * The pre-patch entry point. A failed backend initialisation returns
   * false before anything else happens; a failure creating the sound
   * folders (an exception) returns false with the backend already marked
   * initialised; otherwise the launch sound is started, the ready handler
   * and poll loop are set up, and the result is true.
   */
  function Patch(b: Backend, bassInitOk: bool, foldersCreated: bool, launchScan: Scan, loadingScan: Scan): (r: PatchResult)
    requires Wf(b) && ValidScan(launchScan) && ValidScan(loadingScan)
    ensures WorldWf(r.sequencer.world)
    ensures r.ok <==> bassInitOk && foldersCreated
    ensures r.sequencer.world.bassInitialized <==> bassInitOk
    ensures !r.ok ==>
      && r.sequencer.world.backend == b
      && r.sequencer.world.currentStream == NoStream
      && r.sequencer.world.loadingStream == NoStream
    ensures r.sequencer.phase == InitialPhaseState
    ensures r.sequencer.monitoring == r.ok
  {
    var w0 := World(NoStream, NoStream, false, b);
    if !bassInitOk then PatchResult(Sequencer(w0, InitialPhaseState, false), false)
    else
      var w1 := w0.(bassInitialized := true);
      if !foldersCreated then PatchResult(Sequencer(w1, InitialPhaseState, false), false)
      else PatchResult(Sequencer(PlayLaunchSound(w1, launchScan, loadingScan), InitialPhaseState, true), true)
  }

  datatype Event =
    | Poll(sample: Sample)           // one iteration of the phase poll loop
    | StreamEnds(handle: int)        // a stream plays to its end
    | ReadyCrossfade(doneScan: Scan) // ready handler: the crossfade to "done"
    | ReadyFlagCleared               // ready handler: then the flag is cleared

  predicate ValidEvent(e: Event)
  {
    match e
    case Poll(sample) => ValidScan(sample.phaseFiles)
    case ReadyCrossfade(scan) => ValidScan(scan)
    case _ => true
  }

  predicate ValidEvents(events: seq<Event>)
  {
    forall i :: 0 <= i < |events| ==> ValidEvent(events[i])
  }

  /**
   * One iteration of the poll loop while it runs: the phase step, and for a
   * dispatched cue its playback at full volume through `PlaySound` (the
   * fire-and-forget task collapsed into the tick).
   */
  function PhaseTick(s: Sequencer, sample: Sample): (r: Sequencer)
    requires WorldWf(s.world) && ValidScan(sample.phaseFiles)
    ensures WorldWf(r.world)
    ensures r.monitoring == s.monitoring
    ensures !s.monitoring ==> r == s
    ensures s.monitoring ==> r.phase == PollStep(s.phase, sample).next
    ensures PollStep(s.phase, sample).cue.None? ==> r.world == s.world
  {
    if !s.monitoring then s
    else
      var t := PollStep(s.phase, sample);
      var w := if t.cue.Some? then PlaySound(s.world, t.cue.value.file, Full).world else s.world;
      s.(world := w, phase := t.next)
  }

  function Step(s: Sequencer, e: Event): (r: Sequencer)
    requires WorldWf(s.world) && ValidEvent(e)
    ensures WorldWf(r.world)
    ensures r.monitoring ==> s.monitoring
    ensures !e.Poll? ==> r.phase == s.phase
  {
    match e
    case Poll(sample) => PhaseTick(s, sample)
    case StreamEnds(h) => s.(world := s.world.(backend := Stop(s.world.backend, h)))
    case ReadyCrossfade(scan) => s.(world := CrossfadeToNewSound(s.world, Done, scan))
    case ReadyFlagCleared => s.(monitoring := false)
  }

  function Run(s: Sequencer, events: seq<Event>): (r: Sequencer)
    requires WorldWf(s.world) && ValidEvents(events)
    ensures WorldWf(r.world)
    ensures r.monitoring ==> s.monitoring
    decreases |events|
  {
    if events == [] then s else Run(Step(s, events[0]), events[1..])
  }

  /** Once the flag is cleared, no later event changes the phase state, so
      no phase cue can fire again. */
  lemma {:induction false} NoCueAfterFlagCleared(s: Sequencer, events: seq<Event>)
    requires WorldWf(s.world) && ValidEvents(events)
    requires !s.monitoring
    ensures Run(s, events).phase == s.phase
    decreases |events|
  {
    if events != [] {
      NoCueAfterFlagCleared(Step(s, events[0]), events[1..]);
    }
  }

  function Polls(samples: seq<Sample>): (events: seq<Event>)
    ensures |events| == |samples|
    ensures forall i :: 0 <= i < |samples| ==> events[i] == Poll(samples[i])
  {
    if samples == [] then [] else [Poll(samples[0])] + Polls(samples[1..])
  }

  /** While the loop runs, a run of polls moves the phase state exactly as
      the poll fold does. */
  lemma {:induction false} PollsFollowMonitor(s: Sequencer, samples: seq<Sample>)
    requires WorldWf(s.world) && ValidSamples(samples)
    requires s.monitoring
    ensures ValidEvents(Polls(samples))
    ensures Run(s, Polls(samples)).phase == Monitor(s.phase, samples).final
    decreases |samples|
  {
    if samples != [] {
      var s1 := Step(s, Poll(samples[0]));
      assert Polls(samples)[1..] == Polls(samples[1..]);
      PollsFollowMonitor(s1, samples[1..]);
    }
  }

  /** A phase cue goes through `PlaySound`, so a cue whose file opens takes
      over the current slot, while the loading slot keeps its value. */
  lemma PhaseCueTakesAmbientSlot(s: Sequencer, sample: Sample)
    requires WorldWf(s.world) && ValidScan(sample.phaseFiles)
    requires s.monitoring && s.world.bassInitialized
    requires PollStep(s.phase, sample).cue.Some?
    requires PollStep(s.phase, sample).cue.value.file in s.world.backend.decodable
    ensures var r := PhaseTick(s, sample);
      && r.world.currentStream !in s.world.backend.channels
      && IsPlaying(r.world.backend, r.world.currentStream)
      && r.world.loadingStream == s.world.loadingStream
  {
  }

  /** A handle the backend handed out that neither slot refers to any more:
      no operation of the sequencer can reach it again. */
  predicate Orphaned(w: World, h: int)
  {
    h in w.backend.channels && h != w.currentStream && h != w.loadingStream
  }

  /** A phase cue whose file opens pushes the current stream out of its
      slot; unless it was also the loading stream, it is left orphaned, with
      its release count unchanged. */
  lemma PhaseCueOrphansCurrent(s: Sequencer, sample: Sample)
    requires WorldWf(s.world) && ValidScan(sample.phaseFiles)
    requires s.monitoring && s.world.bassInitialized
    requires PollStep(s.phase, sample).cue.Some?
    requires PollStep(s.phase, sample).cue.value.file in s.world.backend.decodable
    requires s.world.currentStream != NoStream && s.world.currentStream != s.world.loadingStream
    ensures var r := PhaseTick(s, sample);
      && Orphaned(r.world, s.world.currentStream)
      && r.world.backend.channels[s.world.currentStream] == s.world.backend.channels[s.world.currentStream]
  {
  }

  /** No single event releases an orphaned handle or puts it back into a
      slot; only the stream's own end touches its channel at all. */
  lemma StepKeepsOrphan(s: Sequencer, e: Event, h: int)
    requires WorldWf(s.world) && ValidEvent(e)
    requires Orphaned(s.world, h)
    ensures Orphaned(Step(s, e).world, h)
    ensures FreeCalls(Step(s, e).world.backend, h) == FreeCalls(s.world.backend, h)
    ensures e != StreamEnds(h) ==> Step(s, e).world.backend.channels[h] == s.world.backend.channels[h]
  {
  }

  /** An orphaned handle is never released, whatever events follow: the
      release calls of the sequencer only ever reach the handles in the
      two slots. */
  lemma {:induction false} OrphanNeverReleased(s: Sequencer, events: seq<Event>, h: int)
    requires WorldWf(s.world) && ValidEvents(events)
    requires Orphaned(s.world, h)
    ensures Orphaned(Run(s, events).world, h)
    ensures FreeCalls(Run(s, events).world.backend, h) == FreeCalls(s.world.backend, h)
    decreases |events|
  {
    if events != [] {
      StepKeepsOrphan(s, events[0], h);
      OrphanNeverReleased(Step(s, events[0]), events[1..], h);
    }
  }

  /** Two phase cues in a row whose files open: the first cue's stream is
      orphaned by the second while still playing, and no later event ever
      releases it. */
  lemma SecondCueOrphansFirst(s: Sequencer, first: Sample, second: Sample, later: seq<Event>)
    requires WorldWf(s.world) && ValidScan(first.phaseFiles) && ValidScan(second.phaseFiles)
    requires ValidEvents(later)
    requires s.monitoring && s.world.bassInitialized
    requires PollStep(s.phase, first).cue.Some?
    requires PollStep(s.phase, first).cue.value.file in s.world.backend.decodable
    requires PollStep(PhaseTick(s, first).phase, second).cue.Some?
    requires PollStep(PhaseTick(s, first).phase, second).cue.value.file in s.world.backend.decodable
    ensures var cue := PhaseTick(s, first).world.currentStream;
      var s2 := PhaseTick(PhaseTick(s, first), second);
      && cue !in s.world.backend.channels
      && Orphaned(s2.world, cue)
      && IsPlaying(s2.world.backend, cue)
      && FreeCalls(Run(s2, later).world.backend, cue) == 0
  {
    var s1 := PhaseTick(s, first);
    PhaseCueOrphansCurrent(s1, second);
    OrphanNeverReleased(PhaseTick(s1, second), later, s1.world.currentStream);
  }

  /** The flag is cleared only after the "done" crossfade: a qualifying poll
      between the two still fires a cue, which then takes the current slot
      from the "done" stream. */
  lemma CueAfterDoneCrossfade(s: Sequencer, doneScan: Scan, sample: Sample)
    requires WorldWf(s.world) && ValidScan(doneScan) && ValidScan(sample.phaseFiles)
    requires s.monitoring
    requires Qualifies(s.phase, FixedPhaseIndex(sample.progress))
    requires CooldownElapsed(s.phase.lastPhaseSoundTime, sample.now) && HasPhaseFile(sample)
    ensures var s1 := Step(s, ReadyCrossfade(doneScan));
      var s2 := Step(s1, Poll(sample));
      && s2.monitoring
      && s2.phase.lastPhaseSoundTime == Some(sample.now)
      && (s1.world.bassInitialized && PollStep(s1.phase, sample).cue.value.file in s1.world.backend.decodable ==>
            s2.world.currentStream != s1.world.currentStream)
  {
  }

  /** With a launch and a loading file that both open, a successful patch
      leaves the loading stream current, tracked and playing, which is where
      `ReadyLeavesStaleLoading` applies once the "done" file opens too. */
  lemma PatchStartsLoading(b: Backend, launchScan: Scan, loadingScan: Scan)
    requires Wf(b) && ValidScan(launchScan) && ValidScan(loadingScan)
    requires Concat(launchScan.perExtension) != [] && ChosenFile(launchScan) in b.decodable
    requires Concat(loadingScan.perExtension) != [] && ChosenFile(loadingScan) in b.decodable
    ensures var p := Patch(b, true, true, launchScan, loadingScan);
      && p.ok && p.sequencer.monitoring
      && p.sequencer.world.loadingStream == p.sequencer.world.currentStream != NoStream
      && IsPlaying(p.sequencer.world.backend, p.sequencer.world.loadingStream)
      && p.sequencer.world.backend.decodable == b.decodable
  {
  }

  /** The ready handler on a sequencer whose loading stream is still the
      current one and playing: see `DoneLeavesStaleLoadingHandle`. */
  lemma ReadyLeavesStaleLoading(s: Sequencer, doneScan: Scan)
    requires WorldWf(s.world) && ValidScan(doneScan)
    requires s.world.loadingStream == s.world.currentStream != NoStream
    requires IsPlaying(s.world.backend, s.world.loadingStream)
    requires OpensStream(s.world, doneScan)
    ensures var r := Run(s, [ReadyCrossfade(doneScan), ReadyFlagCleared]);
      && !r.monitoring
      && IsPlaying(r.world.backend, r.world.currentStream)
      && r.world.loadingStream == s.world.loadingStream
      && !IsLive(r.world.backend, r.world.loadingStream)
  {
    DoneLeavesStaleLoadingHandle(s.world, doneScan);
    RunTwo(s, ReadyCrossfade(doneScan), ReadyFlagCleared);
  }

  /** A run of two events is the two steps in order. */
  lemma RunTwo(s: Sequencer, e1: Event, e2: Event)
    requires WorldWf(s.world) && ValidEvent(e1) && ValidEvent(e2)
    ensures Run(s, [e1, e2]) == Step(Step(s, e1), e2)
  {
    var s1 := Step(s, e1);
    assert [e1, e2][1..] == [e2];
    assert Run(s, [e1, e2]) == Run(s1, [e2]);
    assert [e2][1..] == [];
    assert Run(s1, [e2]) == Run(Step(s1, e2), []);
  }
}
