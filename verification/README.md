# StartupSounds sequencing engine — a Dafny model

This project models the sound-sequencing core of the StartupSounds pre-patcher
for Resonite (`StartupSoundsPrePatcher.cs`). At process start the patcher plays
a random "launch" sound. It then crossfades to a "loading" sound and polls the
engine's initialisation progress, playing a short "phase" sound when the
fixed-phase index changes. When the engine is ready it crossfades to a "done"
sound and fades out the loading sound.

The model is functional. The process-wide static fields become immutable records.
Every operation is a pure function over them:

- `wrappers.dfy`: `Option` and `Result`.
- `sound_library.dfy` (module `SoundLibrary`): the categories, their folders,
  the supported extensions, and `GetRandomAudioFile` over an abstract listing.
  The listing has one match list per search pattern. The value of
  `random.Next(n)` is passed in as `pick`.
- `phase_monitor.dfy` (module `PhaseMonitor`): one poll-loop iteration as the
  pure step `PollStep`. The whole loop is a fold, `Monitor`, over a sequence of
  samples, and `MonitorLoop` is the same thing written as a loop.
- `audio_backend.dfy` (module `AudioBackend`): an abstract stand-in for BASS.
  - Handles map to channel state `{volume, playing, freeCalls}`.
  - Handles are fresh and non-zero. Freed handles stay in the map, so using or
    freeing one again stays visible.
- `ambient.dfy` (module `Ambient`): the `currentStream` / `loadingStream` /
  `bassInitialized` slots over that backend. It holds `PlaySound`,
  `PerformCrossfade`, `FadeOutLoadingSound`, `CrossfadeToNewSound` and
  `PlayLaunchSound`. Every awaited fade is collapsed into one atomic step.
  `CrossfadeToNewSound` is split at its first await into `BeginCrossfade` and
  `FinishCrossfade`, so the opening volume can be stated.
- `startup.dfy` (module `Startup`): the `Patch` entry point, and a sequencer
  driven by events:
  - one poll iteration;
  - a stream playing to its end;
  - the two halves of the engine-ready handler: the crossfade to "done", then
    clearing the monitoring flag.

The model follows the code as written. The lemmas make the following behaviours explicit:

- Phase cues go through `PlaySound`, so they take over `currentStream`
  (`Startup.PhaseCueTakesAmbientSlot`).
- If opening a new file fails while a stream is current, the crossfade
  releases the stream that is still current. That stream is then left in the
  slot as a released handle (`Ambient.FailedOpenFreesCurrentStream`).
- After the loading-to-done crossfade, the loading stream has already been
  released by the crossfade. So the playing-check of the fade-out fails, and
  `loadingStream` keeps a stale handle (`Ambient.DoneLeavesStaleLoadingHandle`).
- The monitoring flag is cleared only after the "done" crossfade, so a phase
  cue can still fire in between (`Startup.CueAfterDoneCrossfade`).
- If the launch file opens and the loading file does not, the failed loading
  crossfade releases the launch stream and leaves it in both slots. The later
  "done" crossfade then releases that same handle a second time
  (`Ambient.DoneReleasesLaunchTwice`).

Behaviours worth noting:

- Phase cues are not independent transient streams. They overwrite the current
  slot.
- The monitoring flag is cleared after the done crossfade, not when it begins.
- The "done" transition does not always drain the loading stream.
- A handle can be released twice, as above.
- Some streams are never released. A stream displaced from the current slot
  by a phase cue is never released (`Startup.SecondCueOrphansFirst`,
  `Startup.OrphanNeverReleased`). A loading stream that ran to its end while
  another stream was current is neither released nor cleared by "done"
  (`Ambient.DoneSkipsEndedLoading`).
- The cooldown (300 ms), fade time (1000 ms) and poll interval (20 ms) are
  fixed constants, not configuration.

## Model

| member | source | states |
|---|---|---|
| `SoundLibrary.CategoryDirsDistinct` | MonkeyLoader.ModTemplate.PrePatcher/StartupSoundsPrePatcher.cs:27-28 | each of the four categories is searched in its own folder under the sounds root |
| `SoundLibrary.ConcatMembership` | MonkeyLoader.ModTemplate.PrePatcher/StartupSoundsPrePatcher.cs:268-270 | a path is among the joined matches exactly when one of the per-extension searches returned it |
| `SoundLibrary.ConcatEmpty` | MonkeyLoader.ModTemplate.PrePatcher/StartupSoundsPrePatcher.cs:268-272 | the joined match list is empty exactly when every per-extension search found nothing |
| `SoundLibrary.GetRandomAudioFile` | MonkeyLoader.ModTemplate.PrePatcher/StartupSoundsPrePatcher.cs:261-278 | exactly three outcomes: an empty path is an argument error; no match for any extension is a file-not-found error; otherwise the result is a file some extension's search returned |
| `SoundLibrary.EveryMatchSelectable` | MonkeyLoader.ModTemplate.PrePatcher/StartupSoundsPrePatcher.cs:268-277 | every file in the joined match list is returned for some random index, so the choice ranges over all matches of all extensions |
| `PhaseMonitor.PollStep` | MonkeyLoader.ModTemplate.PrePatcher/StartupSoundsPrePatcher.cs:121-145 | the state changes only for a new index in [0,40], which is then recorded; a cue fires exactly when such an index arrives after the cooldown with a phase file present, stamping the cue clock with the current time; without a cue the clock is unchanged |
| `PhaseMonitor.OutOfRangeNeverFires` | MonkeyLoader.ModTemplate.PrePatcher/StartupSoundsPrePatcher.cs:123-129 | a null progress, a negative index or an index above 40 fires no cue and leaves the recorded index and clock unchanged |
| `PhaseMonitor.RepeatedIndexIsIgnored` | MonkeyLoader.ModTemplate.PrePatcher/StartupSoundsPrePatcher.cs:127 | an index equal to the last recorded one changes nothing |
| `PhaseMonitor.FirstQualifyingChangeFires` | MonkeyLoader.ModTemplate.PrePatcher/StartupSoundsPrePatcher.cs:42 | while the cue clock still holds its initial minimum value, the first qualifying index fires whenever a phase file exists, whatever the time |
| `PhaseMonitor.SuppressedChangeIsRecorded` | MonkeyLoader.ModTemplate.PrePatcher/StartupSoundsPrePatcher.cs:131-144 | a qualifying index whose cue is swallowed by the cooldown or by an empty phase folder is still recorded, and the cue clock is left unchanged |
| `PhaseMonitor.Monitor` | MonkeyLoader.ModTemplate.PrePatcher/StartupSoundsPrePatcher.cs:119-149 | the poll loop as a fold over samples dispatches at most one cue per sample |
| `PhaseMonitor.CueIndicesInRange` | MonkeyLoader.ModTemplate.PrePatcher/StartupSoundsPrePatcher.cs:127-129 | over a whole poll run, every dispatched cue's index lies in [0,40] |
| `PhaseMonitor.ClockTracksLastCue` | MonkeyLoader.ModTemplate.PrePatcher/StartupSoundsPrePatcher.cs:131-138 | after a poll run the cue clock holds the time of the run's last cue, or its value before the run if no cue fired |
| `PhaseMonitor.CueSpacing` | MonkeyLoader.ModTemplate.PrePatcher/StartupSoundsPrePatcher.cs:24 | any two cues of a poll run are at least 300 ms apart, and the first is at least 300 ms after the last cue before the run |
| `PhaseMonitor.CuesComeFromSamples` | MonkeyLoader.ModTemplate.PrePatcher/StartupSoundsPrePatcher.cs:123-138 | every cue was dispatched by a sample reporting exactly the cue's index, at the cue's time |
| `PhaseMonitor.MonitorLoop` | MonkeyLoader.ModTemplate.PrePatcher/StartupSoundsPrePatcher.cs:119-149 | the iterative poll loop ends in the same phase state, with the same cues in the same order, as the fold over its samples |
| `Ambient.PlaySound` | MonkeyLoader.ModTemplate.PrePatcher/StartupSoundsPrePatcher.cs:154-166 | returns 0 and changes nothing when the backend is uninitialised or the file cannot be opened; otherwise it opens a fresh non-zero handle at the given volume, playing, makes it current, and touches no other stream or slot |
| `Ambient.PerformCrossfade` | MonkeyLoader.ModTemplate.PrePatcher/StartupSoundsPrePatcher.cs:232-239 | the old stream gets exactly one more release call and ends not playing; a different old stream that is still live ends silent; a different new stream that is still live ends at full volume; no slot and no other stream changes |
| `Ambient.FadeOutLoadingSound` | MonkeyLoader.ModTemplate.PrePatcher/StartupSoundsPrePatcher.cs:241-251 | a loading stream that is still playing ends silent, stopped, released once, and its slot cleared, with nothing else touched; in every other case nothing changes |
| `Ambient.BeginCrossfade` | MonkeyLoader.ModTemplate.PrePatcher/StartupSoundsPrePatcher.cs:208-217 | an empty folder abandons the transition; otherwise the new stream opens at volume 0 if a current stream exists and at 1 if not; the new stream is whatever is current afterwards (the old one if opening failed); the loading slot is assigned only for "loading" |
| `Ambient.CrossfadeToNewSound` | MonkeyLoader.ModTemplate.PrePatcher/StartupSoundsPrePatcher.cs:204-230 | an empty folder changes nothing; a file that opens ends as the current stream, fresh, playing at full volume; the previous current stream is stopped and gets one more release call (a second one if it had already been released); "loading" records the current stream as the loading stream; no stream other than the previous current one (and the loading one for "done") is touched |
| `Ambient.FadeFromOld` | MonkeyLoader.ModTemplate.PrePatcher/StartupSoundsPrePatcher.cs:219-222 | without an old stream nothing changes; otherwise the old stream is stopped and gets one more release call, a different new stream that is playing ends at full volume, and no slot or other stream changes |
| `Ambient.FinishCrossfade` | MonkeyLoader.ModTemplate.PrePatcher/StartupSoundsPrePatcher.cs:219-227 | the rest of a crossfade after its first await: a non-zero old stream is stopped and gets exactly one more release call; the current slot never changes; for folders other than "done" the loading slot is kept, and with no old stream nothing changes; only the old, the new and (for "done") the loading stream are touched |
| `Ambient.FinishDoneLoading` | MonkeyLoader.ModTemplate.PrePatcher/StartupSoundsPrePatcher.cs:224-227 | for "done", a playing loading stream other than the old one is released once, stopped and its slot cleared; a loading stream that was the old one stays in the slot; a loading stream other than the old one that is no longer playing keeps its slot and gets no release call |
| `Ambient.FinishKeepsNewStream` | MonkeyLoader.ModTemplate.PrePatcher/StartupSoundsPrePatcher.cs:219-222 | a playing new stream different from the old one (and, for "done", from the loading one) is still playing afterwards, at full volume after a fade from an old stream and untouched when there was none |
| `Ambient.FinishFrame` | MonkeyLoader.ModTemplate.PrePatcher/StartupSoundsPrePatcher.cs:219-227 | no channel other than the old, the new and (for "done") the loading stream changes |
| `Ambient.FailedOpenFreesCurrentStream` | MonkeyLoader.ModTemplate.PrePatcher/StartupSoundsPrePatcher.cs:209-221 | if opening the chosen file fails while a stream is current, the crossfade releases that stream, which stays in the current slot (and, for "loading", in the loading slot) as a released handle |
| `Ambient.DoneLeavesStaleLoadingHandle` | MonkeyLoader.ModTemplate.PrePatcher/StartupSoundsPrePatcher.cs:219-227 | when the loading stream is still current at "done", the crossfade releases it, so the fade-out's playing-check fails and the loading slot keeps the released handle |
| `Ambient.DoneDrainsLoading` | MonkeyLoader.ModTemplate.PrePatcher/StartupSoundsPrePatcher.cs:241-251 | when another stream has become current, "done" fades out a still-playing loading stream, releases it once and clears the loading slot |
| `Ambient.DoneSkipsEndedLoading` | MonkeyLoader.ModTemplate.PrePatcher/StartupSoundsPrePatcher.cs:241-251 | a loading stream that is no longer playing and not current keeps its slot through "done" and gets no release call |
| `Ambient.PlayLaunchSound` | MonkeyLoader.ModTemplate.PrePatcher/StartupSoundsPrePatcher.cs:168-202 | an empty launch folder goes straight to the loading crossfade, and leaves everything unchanged when the loading folder is empty too; a launch file that opens, with an empty loading folder, ends as a fresh current stream playing at full volume with the loading slot untouched; a non-empty loading folder always leaves the loading slot equal to the current slot; the backend's initialised flag and decodable files never change |
| `Ambient.LaunchHandsOverToLoading` | MonkeyLoader.ModTemplate.PrePatcher/StartupSoundsPrePatcher.cs:172-185 | from a fresh start with launch and loading files that open: the launch stream is released once and is not playing when the launch task waits for it; the loading stream is current, tracked as loading, and playing at full volume |
| `Ambient.FailedLoadingRecordsLaunchAsLoading` | MonkeyLoader.ModTemplate.PrePatcher/StartupSoundsPrePatcher.cs:209-216 | from a fresh start, a launch file that opens and a loading file that does not leave both slots holding the launch handle, released once |
| `Ambient.DoneReleasesLaunchTwice` | MonkeyLoader.ModTemplate.PrePatcher/StartupSoundsPrePatcher.cs:209-221 | in that situation a "done" crossfade whose file exists releases the launch handle a second time, so it has had two release calls |
| `Ambient.LaunchWithoutLoading` | MonkeyLoader.ModTemplate.PrePatcher/StartupSoundsPrePatcher.cs:172-180 | from a fresh start, a launch file that opens and an empty loading folder leave the launch stream current, playing at full volume, with no loading stream |
| `Ambient.UndecodableLaunchGoesToLoading` | MonkeyLoader.ModTemplate.PrePatcher/StartupSoundsPrePatcher.cs:172-185 | from a fresh start, a launch file that does not open and a loading file that does leave a fresh loading stream current, tracked as loading and playing at full volume, with no existing channel touched |
| `Startup.Patch` | MonkeyLoader.ModTemplate.PrePatcher/StartupSoundsPrePatcher.cs:56-73 | succeeds exactly when backend initialisation and folder creation both succeed; a failed initialisation leaves the backend flag false; on failure no stream is created and no slot is set; polling runs exactly when the patch succeeded |
| `Startup.PhaseTick` | MonkeyLoader.ModTemplate.PrePatcher/StartupSoundsPrePatcher.cs:119-145 | a poll after the loop has stopped changes nothing; otherwise the phase state moves as one poll step, and the streams change only when a cue fires |
| `Startup.Step` | MonkeyLoader.ModTemplate.PrePatcher/StartupSoundsPrePatcher.cs:103-108 | no event sets the monitoring flag back to true once it is cleared, and only polls change the phase state |
| `Startup.Run` | MonkeyLoader.ModTemplate.PrePatcher/StartupSoundsPrePatcher.cs:43 | over any event sequence the slots keep referring to handles the backend handed out, and a cleared monitoring flag stays cleared |
| `Startup.NoCueAfterFlagCleared` | MonkeyLoader.ModTemplate.PrePatcher/StartupSoundsPrePatcher.cs:119 | once the flag is cleared, no later event changes the phase state, so no further cue fires |
| `Startup.PollsFollowMonitor` | MonkeyLoader.ModTemplate.PrePatcher/StartupSoundsPrePatcher.cs:119-149 | while the loop runs, a run of poll events leaves the phase state where the poll fold does |
| `Startup.PhaseCueTakesAmbientSlot` | MonkeyLoader.ModTemplate.PrePatcher/StartupSoundsPrePatcher.cs:137 | a phase cue whose file opens becomes the current stream, fresh and playing, while the loading slot keeps its value |
| `Startup.PhaseCueOrphansCurrent` | MonkeyLoader.ModTemplate.PrePatcher/StartupSoundsPrePatcher.cs:137 | a phase cue whose file opens pushes a current stream that is not the loading stream out of both slots, leaving its channel as it was |
| `Startup.StepKeepsOrphan` | MonkeyLoader.ModTemplate.PrePatcher/StartupSoundsPrePatcher.cs:103-149 | no event releases a handle that neither slot refers to or puts it back into a slot; only its own end of playback touches its channel |
| `Startup.OrphanNeverReleased` | MonkeyLoader.ModTemplate.PrePatcher/StartupSoundsPrePatcher.cs:137 | a handle that neither slot refers to stays out of both slots and gets no further release call over any event sequence |
| `Startup.SecondCueOrphansFirst` | MonkeyLoader.ModTemplate.PrePatcher/StartupSoundsPrePatcher.cs:131-138 | two phase cues whose files open: the first cue's stream is still playing, in neither slot, and is never released by any later events |
| `Startup.CueAfterDoneCrossfade` | MonkeyLoader.ModTemplate.PrePatcher/StartupSoundsPrePatcher.cs:105-107 | the flag is cleared only after the "done" crossfade: a qualifying poll in between still fires, and a cue that opens takes the current slot from the "done" stream |
| `Startup.PatchStartsLoading` | MonkeyLoader.ModTemplate.PrePatcher/StartupSoundsPrePatcher.cs:56-66 | with launch and loading files that open, a successful patch leaves polling on and the loading stream current, tracked and playing |
| `Startup.ReadyLeavesStaleLoading` | MonkeyLoader.ModTemplate.PrePatcher/StartupSoundsPrePatcher.cs:103-108 | the ready handler, run while the loading stream is still current and playing, leaves the flag cleared, the "done" stream playing, and the loading slot holding the released loading handle |

## Left out

- The real BASS calls become the abstract handle map of `AudioBackend`. These
  are device initialisation (79-85), decoding, attribute setting, slides,
  stopping and freeing. The result of `Bass.Init` is the `bassInitOk` parameter
  of `Patch`. Whether a file decodes is the backend's `decodable` set.
- Volumes are `Silent`/`Full`, not floats, and slide curves are not modelled.
  A fade that has been waited out is its end state.
- Concurrency is collapsed: `Task.Run`, `Task.Delay`, the `volatile` flag, and
  the interleaving of the launch task, the loading crossfade, the poll loop and
  the ready handler (99-109, 176-191, 253-259).
  - Each crossfade runs to completion as one step.
  - A phase cue's fire-and-forget `PlaySound` is applied inside the poll tick
    that dispatches it.
  - A poll that the code would let run during a crossfade's awaits is not
    representable.
- `PlayLaunchSound`: the wait for the launch stream to finish (181, 253-259)
  is collapsed into no step. This is justified when both files open, where
  `LaunchHandsOverToLoading` shows the launch stream has already stopped.
  When the loading folder is empty, the model does not represent the time the
  launch stream keeps playing.
- The two reads of the wall clock in one poll (131 and 138) are one instant
  `now`. `DateTime.MinValue` is `None`, meaning no cue has fired yet.
- Reflection on `Engine.InitProgress` (116, 123) is an abstract `Option<int>`
  in each sample.
  - A missing backing field makes the loop return at once (117). In the model
    that is a run with no poll events.
  - Polls before the engine exists (101, 121) change nothing. They are modelled
    as samples with no progress value.
- Filesystem work: `Directory.GetFiles` pattern semantics, and the directory
  creation of 88-95. A failure there becomes the `foldersCreated` parameter of
  `Patch`. `Path.Combine` is modelled with a `/` separator.
- Exceptions other than "no audio files" inside `PlayLaunchSound` (187-190,
  197-201) are not modelled. Such an exception could only come from a failed
  directory scan.
- The sequencer accepts events in any order. It does not enforce that the
  ready handler runs once, after a successful patch, with its two halves
  adjacent. The lemmas state the orders they assume.
- `Directory.GetFiles` (269) can throw `DirectoryNotFoundException` or
  `IOException`, and the model has no such outcome. In the poll loop the call
  at 136 would escape the `FileNotFoundException` catch at 140 and end
  `MonitorEnginePhases` for good: the index at 144 would not be recorded and
  the monitoring flag would stay true.
- The same exception from the call at 208 would escape the catch at 229 and
  end the crossfade task of the ready handler.
- Times are integer milliseconds. The cooldown test at 131-132 compares
  `TotalMilliseconds`, a `double`, so sub-millisecond differences are not
  modelled.
- `System.Random` (277): the chosen index is the `pick` field of a scan.
- Logging, the unused `lastPhase` field (45), and the feature and pre-patch
  target registration (50-54).
- `StartupSounds.cs` is not part of this model. It is bytecode injection of a
  log call into the engine's static constructor.
