/**
 * The ambient-slot state machine: the process-wide `currentStream`,
 * `loadingStream` and `bassInitialized` fields over the abstract backend,
 * and the operations that play, crossfade and release streams.
 *
 * Each awaited delay (a fade of 1000 milliseconds) is collapsed into one
 * atomic step: a fade is modelled by its completed effect.
 */
module Ambient {
  import opened Wrappers
  import opened SoundLibrary
  import opened AudioBackend

  datatype World = World(currentStream: int, loadingStream: int, bassInitialized: bool, backend: Backend)

  /** The sentinel, or a handle the backend handed out (possibly since freed). */
  predicate Tracked(b: Backend, h: int)
  {
    h == NoStream || h in b.channels
  }

  predicate WorldWf(w: World)
  {
    Wf(w.backend) && Tracked(w.backend, w.currentStream) && Tracked(w.backend, w.loadingStream)
  }

  datatype Played = Played(world: World, stream: int)

  /**
   * Opens `path`, sets its volume, starts it and makes it the current
   * stream; returns the handle, or the sentinel (changing nothing) when the
   * backend was never initialised or the file cannot be opened.
   */
  function PlaySound(w: World, path: string, initialVolume: Volume): (p: Played)
    requires WorldWf(w)
    ensures WorldWf(p.world)
    ensures p.stream == NoStream <==> !w.bassInitialized || path !in w.backend.decodable
    ensures p.stream == NoStream ==> p.world == w
    ensures p.stream != NoStream ==>
      && p.stream !in w.backend.channels
      && p.world.currentStream == p.stream
      && p.world.loadingStream == w.loadingStream
      && p.world.bassInitialized == w.bassInitialized
      && p.world.backend.channels == w.backend.channels[p.stream := Channel(initialVolume, true, 0)]
      && p.world.backend.decodable == w.backend.decodable
  {
    if !w.bassInitialized then Played(w, NoStream)
    else
      var c := CreateStream(w.backend, path);
      if c.handle == NoStream then Played(w, NoStream)
      else
        var b := Play(SetVolume(c.backend, c.handle, initialVolume), c.handle);
        Played(w.(currentStream := c.handle, backend := b), c.handle)
  }

  /**
   * A completed crossfade: the old stream slid to silence and the new one to
   * full volume, then the old stream stopped and released. The slots are
   * untouched. Releasing always happens, even when the old stream was
   * released before or is the same handle as the new one.
   */
  function PerformCrossfade(w: World, oldStream: int, newStream: int): (r: World)
    requires WorldWf(w)
    ensures WorldWf(r)
    ensures r == w.(backend := r.backend)
    ensures SameOutside(w.backend, r.backend, {oldStream, newStream})
    ensures oldStream in w.backend.channels ==>
      && FreeCalls(r.backend, oldStream) == FreeCalls(w.backend, oldStream) + 1
      && !IsPlaying(r.backend, oldStream)
    ensures IsLive(w.backend, oldStream) && oldStream != newStream ==>
      && r.backend.channels[oldStream].volume == Silent
      && !r.backend.channels[oldStream].playing
    ensures oldStream != newStream && IsLive(w.backend, newStream) ==>
      r.backend.channels[newStream] == w.backend.channels[newStream].(volume := Full)
  {
    var b1 := SetVolume(w.backend, oldStream, Silent);
    var b2 := SetVolume(b1, newStream, Full);
    var b3 := Stop(b2, oldStream);
    var b4 := Free(b3, oldStream);
    w.(backend := b4)
  }

  /**
   * On the way to "done": a loading stream that is still playing is faded
   * out, stopped, released and the slot cleared; otherwise nothing happens.
   */
  function FadeOutLoadingSound(w: World): (r: World)
    requires WorldWf(w)
    ensures WorldWf(r)
    ensures IsPlaying(w.backend, w.loadingStream) ==>
      && r == w.(loadingStream := NoStream, backend := r.backend)
      && w.loadingStream in r.backend.channels
      && r.backend.channels[w.loadingStream] ==
           w.backend.channels[w.loadingStream].(volume := Silent, playing := false, freeCalls := 1)
      && SameOutside(w.backend, r.backend, {w.loadingStream})
    ensures !IsPlaying(w.backend, w.loadingStream) ==> r == w
  {
    if w.loadingStream != NoStream && IsPlaying(w.backend, w.loadingStream) then
      var ls := w.loadingStream;
      var b := Free(Stop(SetVolume(w.backend, ls, Silent), ls), ls);
      w.(loadingStream := NoStream, backend := b)
    else w
  }

  /** The file a non-empty scan selects. */
  function ChosenFile(scan: Scan): (file: string)
    requires ValidScan(scan) && Concat(scan.perExtension) != []
  {
    Concat(scan.perExtension)[scan.pick]
  }

  /** The crossfade will open a new stream: the backend is up, the folder has
      a file, and the chosen file can be decoded. */
  predicate OpensStream(w: World, scan: Scan)
    requires ValidScan(scan)
  {
    && w.bassInitialized
    && Concat(scan.perExtension) != []
    && ChosenFile(scan) in w.backend.decodable
  }

  /** A crossfade between its start and its first await. */
  datatype Pending = Pending(world: World, oldStream: int, newStream: int)

  /**
   * The synchronous start of a crossfade: choose a file, open it at volume
   * 0 if a current stream exists (else at 1), take the current slot's value
   * afterwards as the new stream, and record it as the loading stream for
   * the "loading" category. An empty folder abandons the crossfade.
   */
  function BeginCrossfade(w: World, folder: Category, scan: Scan): (r: Option<Pending>)
    requires WorldWf(w) && ValidScan(scan)
    ensures r.None? <==> Concat(scan.perExtension) == []
    ensures r.Some? ==>
      var p := r.value;
      && WorldWf(p.world)
      && Tracked(p.world.backend, p.oldStream)
      && p.oldStream == w.currentStream
      && p.newStream == p.world.currentStream
      && p.world.bassInitialized == w.bassInitialized
      && p.world.loadingStream == (if folder == Loading then p.newStream else w.loadingStream)
      && (OpensStream(w, scan) ==>
            && p.newStream !in w.backend.channels
            && p.world.backend.channels ==
                 w.backend.channels[p.newStream := Channel(if p.oldStream != NoStream then Silent else Full, true, 0)]
            && p.world.backend.decodable == w.backend.decodable)
      && (!OpensStream(w, scan) ==> p.newStream == p.oldStream && p.world.backend == w.backend)
      && (p.newStream in w.backend.channels ==> p.newStream == p.oldStream)
      && Extends(w.backend, p.world.backend)
  {
    match GetRandomAudioFile(CategoryDir(folder), scan)
    case Err(_) => None
    case Ok(file) =>
      assert file == ChosenFile(scan);
      var oldStream := w.currentStream;
      var p := PlaySound(w, file, if oldStream != NoStream then Silent else Full);
      var newStream := p.world.currentStream;
      var w1 := if folder == Loading then p.world.(loadingStream := newStream) else p.world;
      Some(Pending(w1, oldStream, newStream))
  }

  /** The crossfade from the old stream, when there is one. */
  function FadeFromOld(p: Pending): (r: World)
    requires WorldWf(p.world) && Tracked(p.world.backend, p.oldStream)
    ensures WorldWf(r)
    ensures r == p.world.(backend := r.backend)
    ensures p.oldStream == NoStream ==> r == p.world
    ensures SameOutside(p.world.backend, r.backend, {p.oldStream, p.newStream})
    ensures p.oldStream != NoStream ==>
      && FreeCalls(r.backend, p.oldStream) == FreeCalls(p.world.backend, p.oldStream) + 1
      && !IsPlaying(r.backend, p.oldStream)
    ensures p.newStream != p.oldStream && IsPlaying(p.world.backend, p.newStream) ==>
      && IsPlaying(r.backend, p.newStream)
      && (p.oldStream != NoStream ==> r.backend.channels[p.newStream].volume == Full)
      && (p.oldStream == NoStream ==> r.backend.channels[p.newStream] == p.world.backend.channels[p.newStream])
  {
    if p.oldStream == NoStream then p.world else PerformCrossfade(p.world, p.oldStream, p.newStream)
  }

  /** The awaited rest of a crossfade: the fade from the old stream when
      there was one, then, for "done", the fade-out of the loading stream. */
  function FinishCrossfade(p: Pending, folder: Category): (r: World)
    requires WorldWf(p.world) && Tracked(p.world.backend, p.oldStream)
    ensures WorldWf(r)
    ensures r.currentStream == p.world.currentStream && r.bassInitialized == p.world.bassInitialized
    ensures p.oldStream != NoStream ==>
      && FreeCalls(r.backend, p.oldStream) == FreeCalls(p.world.backend, p.oldStream) + 1
      && !IsPlaying(r.backend, p.oldStream)
    ensures p.oldStream == NoStream && folder != Done ==> r == p.world
    ensures folder != Done ==> r.loadingStream == p.world.loadingStream
    ensures SameOutside(p.world.backend, r.backend,
              {p.oldStream, p.newStream} + (if folder == Done then {p.world.loadingStream} else {}))
  {
    var w1 := FadeFromOld(p);
    if folder == Done then FadeOutLoadingSound(w1) else w1
  }

  /** For "done", the fade-out of the loading stream after the crossfade:
      a loading stream other than the old one that is still playing is
      drained and its slot cleared; a loading stream that was the old one
      has just been stopped, so its handle stays in the slot; and a loading
      stream other than the old one that is no longer playing (it ran to its
      end) keeps its slot and gets no release call. */
  lemma FinishDoneLoading(p: Pending)
    requires WorldWf(p.world) && Tracked(p.world.backend, p.oldStream)
    ensures var r := FinishCrossfade(p, Done);
      && (p.world.loadingStream != p.oldStream && IsPlaying(p.world.backend, p.world.loadingStream) ==>
            && r.loadingStream == NoStream
            && FreeCalls(r.backend, p.world.loadingStream) == 1
            && !IsPlaying(r.backend, p.world.loadingStream))
      && (p.world.loadingStream == p.oldStream ==> r.loadingStream == p.oldStream)
      && (p.world.loadingStream != p.oldStream && !IsPlaying(p.world.backend, p.world.loadingStream) ==>
            && r.loadingStream == p.world.loadingStream
            && FreeCalls(r.backend, p.world.loadingStream) == FreeCalls(p.world.backend, p.world.loadingStream))
  {
  }

  /** The rest of the crossfade touches no channel but the old, the new
      and, for "done", the loading one. */
  lemma FinishFrame(p: Pending, folder: Category)
    requires WorldWf(p.world) && Tracked(p.world.backend, p.oldStream)
    ensures var r := FinishCrossfade(p, folder);
      forall k :: k in p.world.backend.channels && k != p.oldStream && k != p.newStream
                  && (folder == Done ==> k != p.world.loadingStream)
        ==> r.backend.channels[k] == p.world.backend.channels[k]
  {
  }

  /** The new stream comes out of the rest of the crossfade still playing,
      at full volume when it faded in from an old stream, and untouched when
      there was none. */
  lemma FinishKeepsNewStream(p: Pending, folder: Category)
    requires WorldWf(p.world) && Tracked(p.world.backend, p.oldStream)
    ensures var r := FinishCrossfade(p, folder);
      p.newStream != p.oldStream && IsPlaying(p.world.backend, p.newStream)
      && (folder == Done ==> p.newStream != p.world.loadingStream) ==>
      && IsPlaying(r.backend, p.newStream)
      && (p.oldStream != NoStream ==> r.backend.channels[p.newStream].volume == Full)
      && (p.oldStream == NoStream ==> r.backend.channels[p.newStream] == p.world.backend.channels[p.newStream])
  {
  }

  /**
   * `CrossfadeToNewSound(folder)` run to completion. An empty folder changes
   * nothing. Otherwise a freshly opened stream ends up current, playing at
   * full volume; the previous current stream is stopped and gets one more
   * release call (a second one if it was already released); no stream other than the previous current one (and, for "done",
   * the loading one) is touched.
   */
  function CrossfadeToNewSound(w: World, folder: Category, scan: Scan): (r: World)
    requires WorldWf(w) && ValidScan(scan)
    ensures WorldWf(r)
    ensures r.bassInitialized == w.bassInitialized && r.backend.decodable == w.backend.decodable
    ensures Concat(scan.perExtension) == [] ==> r == w
    ensures OpensStream(w, scan) ==>
      && r.currentStream !in w.backend.channels
      && IsPlaying(r.backend, r.currentStream)
      && r.backend.channels[r.currentStream].volume == Full
    ensures !OpensStream(w, scan) ==> r.currentStream == w.currentStream
    ensures Concat(scan.perExtension) != [] && w.currentStream != NoStream ==>
      && FreeCalls(r.backend, w.currentStream) == FreeCalls(w.backend, w.currentStream) + 1
      && !IsPlaying(r.backend, w.currentStream)
    ensures folder == Loading && Concat(scan.perExtension) != [] ==> r.loadingStream == r.currentStream
    ensures folder != Loading && folder != Done ==> r.loadingStream == w.loadingStream
    ensures w.backend.channels.Keys <= r.backend.channels.Keys
    ensures forall k :: k in w.backend.channels && k != w.currentStream && (folder == Done ==> k != w.loadingStream)
              ==> r.backend.channels[k] == w.backend.channels[k]
  {
    match BeginCrossfade(w, folder, scan)
    case None => w
    case Some(p) =>
      FinishDoneLoading(p);
      FinishKeepsNewStream(p, folder);
      FinishFrame(p, folder);
      FinishCrossfade(p, folder)
  }

  /**
   * Opening fails while a current stream exists: the failed open leaves the
   * current slot as it was, so the crossfade "from old to new" fades,
   * stops and releases the stream that is still current. The slot then
   * holds a released handle, and for "loading" the loading slot does too.
   */
  lemma FailedOpenFreesCurrentStream(w: World, folder: Category, scan: Scan)
    requires WorldWf(w) && ValidScan(scan)
    requires Concat(scan.perExtension) != [] && !OpensStream(w, scan)
    requires w.currentStream != NoStream
    ensures var r := CrossfadeToNewSound(w, folder, scan);
      && r.currentStream == w.currentStream
      && !IsLive(r.backend, r.currentStream)
      && (folder == Loading ==> r.loadingStream == w.currentStream)
  {
  }

  /**
   * The loading -> done crossfade as written: when the loading stream is
   * still the current one, the crossfade itself releases it, so the
   * playing-check of the loading fade-out fails and the loading slot keeps
   * the released handle.
   */
  lemma DoneLeavesStaleLoadingHandle(w: World, scan: Scan)
    requires WorldWf(w) && ValidScan(scan)
    requires Concat(scan.perExtension) != []
    requires w.loadingStream == w.currentStream != NoStream
    requires IsPlaying(w.backend, w.loadingStream)
    ensures var r := CrossfadeToNewSound(w, Done, scan);
      && r.loadingStream == w.loadingStream
      && !IsLive(r.backend, r.loadingStream)
      && FreeCalls(r.backend, r.loadingStream) == 1
  {
  }

  /**
   * When something else has become current since (a phase cue, say), the
   * "done" crossfade fades out a still-playing loading stream, releases it
   * once and clears the loading slot.
   */
  lemma DoneDrainsLoading(w: World, scan: Scan)
    requires WorldWf(w) && ValidScan(scan)
    requires Concat(scan.perExtension) != []
    requires w.loadingStream != w.currentStream
    requires IsPlaying(w.backend, w.loadingStream)
    ensures var r := CrossfadeToNewSound(w, Done, scan);
      && r.loadingStream == NoStream
      && FreeCalls(r.backend, w.loadingStream) == 1
      && !IsPlaying(r.backend, w.loadingStream)
  {
  }

  /**
   * Plays a random "launch" sound at full volume and then, in what the
   * source runs as a background task, crossfades to "loading", waits for the
   * launch stream to stop, and sets the loading stream to full volume. An
   * empty launch folder goes straight to the loading crossfade.
   */
  function PlayLaunchSound(w: World, launchScan: Scan, loadingScan: Scan): (r: World)
    requires WorldWf(w) && ValidScan(launchScan) && ValidScan(loadingScan)
    ensures WorldWf(r)
    ensures r.bassInitialized == w.bassInitialized && r.backend.decodable == w.backend.decodable
    ensures Concat(launchScan.perExtension) == [] ==> r == CrossfadeToNewSound(w, Loading, loadingScan)
    ensures Concat(launchScan.perExtension) == [] && Concat(loadingScan.perExtension) == [] ==> r == w
    ensures OpensStream(w, launchScan) && Concat(loadingScan.perExtension) == [] ==>
      && r.currentStream !in w.backend.channels
      && IsPlaying(r.backend, r.currentStream)
      && r.backend.channels[r.currentStream].volume == Full
      && r.loadingStream == w.loadingStream
    ensures Concat(loadingScan.perExtension) != [] ==> r.loadingStream == r.currentStream
  {
    match GetRandomAudioFile(CategoryDir(Launch), launchScan)
    case Err(_) => CrossfadeToNewSound(w, Loading, loadingScan)
    case Ok(file) =>
      var launched := PlaySound(w, file, Full).world;
      var w2 := CrossfadeToNewSound(launched, Loading, loadingScan);
      if w2.loadingStream != NoStream then w2.(backend := SetVolume(w2.backend, w2.loadingStream, Full)) else w2
  }

  /** A loading stream that ran to its end while another stream was
      current is neither released nor cleared by the "done" crossfade: the
      fade-out's playing-check fails, so the handle is never freed there. */
  lemma DoneSkipsEndedLoading(w: World, scan: Scan)
    requires WorldWf(w) && ValidScan(scan)
    requires w.loadingStream != NoStream && w.loadingStream != w.currentStream
    requires !IsPlaying(w.backend, w.loadingStream)
    ensures var r := CrossfadeToNewSound(w, Done, scan);
      && r.loadingStream == w.loadingStream
      && FreeCalls(r.backend, w.loadingStream) == FreeCalls(w.backend, w.loadingStream)
  {
  }

  /** The slots and backend of a process that has just initialised BASS. */
  predicate Fresh(w: World)
  {
    w.currentStream == NoStream && w.loadingStream == NoStream && w.bassInitialized
  }

  /**
   * From a fresh start with both a launch and a loading file that open: the
   * launch stream is released exactly once and no longer playing (so the
   * wait for it to finish returns at once), and the loading stream is
   * current, tracked as the loading stream, and playing at full volume.
   */
  lemma LaunchHandsOverToLoading(w: World, launchScan: Scan, loadingScan: Scan)
    requires WorldWf(w) && ValidScan(launchScan) && ValidScan(loadingScan)
    requires Fresh(w)
    requires OpensStream(w, launchScan) && OpensStream(w, loadingScan)
    ensures var r := PlayLaunchSound(w, launchScan, loadingScan);
      var launch := PlaySound(w, ChosenFile(launchScan), Full).stream;
      && launch != NoStream
      && FreeCalls(r.backend, launch) == 1
      && !IsPlaying(r.backend, launch)
      && r.loadingStream == r.currentStream != launch
      && IsPlaying(r.backend, r.currentStream)
      && r.backend.channels[r.currentStream].volume == Full
  {
  }

  /**
   * From a fresh start, a launch file that opens but a loading file that
   * does not: the loading slot records the launch stream, which the
   * crossfade has just released.
   */
  lemma FailedLoadingRecordsLaunchAsLoading(w: World, launchScan: Scan, loadingScan: Scan)
    requires WorldWf(w) && ValidScan(launchScan) && ValidScan(loadingScan)
    requires Fresh(w)
    requires OpensStream(w, launchScan)
    requires Concat(loadingScan.perExtension) != [] && ChosenFile(loadingScan) !in w.backend.decodable
    ensures var r := PlayLaunchSound(w, launchScan, loadingScan);
      var launch := PlaySound(w, ChosenFile(launchScan), Full).stream;
      && r.loadingStream == r.currentStream == launch != NoStream
      && FreeCalls(r.backend, launch) == 1
  {
  }

  /**
   * Continuing from there, the "done" crossfade releases the launch handle a
   * second time: it is still the current stream, so it is the "old" stream
   * of the crossfade, whatever becomes of the "done" file.
   */
  lemma DoneReleasesLaunchTwice(w: World, launchScan: Scan, loadingScan: Scan, doneScan: Scan)
    requires WorldWf(w) && ValidScan(launchScan) && ValidScan(loadingScan) && ValidScan(doneScan)
    requires Fresh(w)
    requires OpensStream(w, launchScan)
    requires Concat(loadingScan.perExtension) != [] && ChosenFile(loadingScan) !in w.backend.decodable
    requires Concat(doneScan.perExtension) != []
    ensures var launch := PlaySound(w, ChosenFile(launchScan), Full).stream;
      var r := CrossfadeToNewSound(PlayLaunchSound(w, launchScan, loadingScan), Done, doneScan);
      FreeCalls(r.backend, launch) == 2
  {
    FailedLoadingRecordsLaunchAsLoading(w, launchScan, loadingScan);
  }

  /**
   * From a fresh start, a launch file that opens and an empty loading
   * folder: the launch stream stays current, playing at full volume, and
   * the loading slot stays empty.
   */
  lemma LaunchWithoutLoading(w: World, launchScan: Scan, loadingScan: Scan)
    requires WorldWf(w) && ValidScan(launchScan) && ValidScan(loadingScan)
    requires Fresh(w)
    requires OpensStream(w, launchScan) && Concat(loadingScan.perExtension) == []
    ensures var r := PlayLaunchSound(w, launchScan, loadingScan);
      var launch := PlaySound(w, ChosenFile(launchScan), Full).stream;
      && r.currentStream == launch != NoStream
      && IsPlaying(r.backend, launch)
      && r.backend.channels[launch].volume == Full
      && r.loadingStream == NoStream
  {
  }

  /**
   * From a fresh start, a launch file that does not decode and a loading
   * file that does: the launch step does nothing, and the loading stream
   * opens at full volume with no stream to fade from, current and tracked as
   * loading; no existing stream is touched.
   */
  lemma UndecodableLaunchGoesToLoading(w: World, launchScan: Scan, loadingScan: Scan)
    requires WorldWf(w) && ValidScan(launchScan) && ValidScan(loadingScan)
    requires Fresh(w)
    requires Concat(launchScan.perExtension) != [] && ChosenFile(launchScan) !in w.backend.decodable
    requires OpensStream(w, loadingScan)
    ensures var r := PlayLaunchSound(w, launchScan, loadingScan);
      && r.loadingStream == r.currentStream
      && r.currentStream !in w.backend.channels
      && IsPlaying(r.backend, r.currentStream)
      && r.backend.channels[r.currentStream].volume == Full
      && forall k :: k in w.backend.channels ==> r.backend.channels[k] == w.backend.channels[k]
  {
  }
}
