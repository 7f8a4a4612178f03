/**
 * An abstract audio backend standing in for the BASS library: a map from
 * stream handle to channel state. Handles are handed out fresh, starting
 * above the "no stream" sentinel 0. A freed handle stays in the map so that
 * later use or a second release of it remains visible: `freeCalls` counts
 * every `StreamFree` call made on the handle.
 *
 * A timed volume slide that has been waited out lands where `SetVolume`
 * would put it, so a completed fade is a single `SetVolume` step.
 */
module AudioBackend {

  /** The two volumes the sequencer ever sets or slides to. */
  datatype Volume = Silent | Full

  datatype Channel = Channel(volume: Volume, playing: bool, freeCalls: nat)

  /** `decodable` holds the files the backend can open as streams. */
  datatype Backend = Backend(channels: map<int, Channel>, nextHandle: int, decodable: set<string>)

  const NoStream: int := 0

  /** Every handle ever created lies strictly between the sentinel and the
      next handle to be handed out. */
  predicate Wf(b: Backend)
  {
    b.nextHandle > NoStream && forall h :: h in b.channels ==> NoStream < h < b.nextHandle
  }

  /** Created and not yet freed. */
  predicate IsLive(b: Backend, h: int)
  {
    h in b.channels && b.channels[h].freeCalls == 0
  }

  /** `ChannelIsActive(h) == PlaybackState.Playing`. */
  predicate IsPlaying(b: Backend, h: int)
  {
    IsLive(b, h) && b.channels[h].playing
  }

  /** `r` differs from `b` at most in the channels of the handles in `hs`. */
  predicate SameOutside(b: Backend, r: Backend, hs: set<int>)
  {
    && r.nextHandle == b.nextHandle
    && r.decodable == b.decodable
    && r.channels.Keys == b.channels.Keys
    && forall k :: k in b.channels && k !in hs ==> r.channels[k] == b.channels[k]
  }

  /** `r` keeps every channel of `b` as it was and may add new ones. */
  predicate Extends(b: Backend, r: Backend)
  {
    && b.channels.Keys <= r.channels.Keys
    && forall k :: k in b.channels ==> r.channels[k] == b.channels[k]
  }

  /** Number of release calls made on `h` so far. */
  function FreeCalls(b: Backend, h: int): (n: nat)
  {
    if h in b.channels then b.channels[h].freeCalls else 0
  }

  datatype Created = Created(backend: Backend, handle: int)

  /** Opens a stream on a file: a fresh handle at full volume, not yet
      playing, or the sentinel when the file cannot be decoded. */
  function CreateStream(b: Backend, path: string): (c: Created)
    requires Wf(b)
    ensures Wf(c.backend)
    ensures c.handle == NoStream <==> path !in b.decodable
    ensures c.handle == NoStream ==> c.backend == b
    ensures c.handle != NoStream ==>
      && c.handle !in b.channels
      && c.backend.channels == b.channels[c.handle := Channel(Full, false, 0)]
      && c.backend.decodable == b.decodable
  {
    if path !in b.decodable then Created(b, NoStream)
    else
      var h := b.nextHandle;
      Created(b.(channels := b.channels[h := Channel(Full, false, 0)], nextHandle := h + 1), h)
  }

  /** Sets the volume of a live stream; a freed or unknown handle is refused. */
  function SetVolume(b: Backend, h: int, v: Volume): (r: Backend)
    requires Wf(b)
    ensures Wf(r) && SameOutside(b, r, {h})
    ensures IsLive(b, h) ==> r.channels[h] == b.channels[h].(volume := v)
    ensures !IsLive(b, h) ==> r == b
  {
    if IsLive(b, h) then b.(channels := b.channels[h := b.channels[h].(volume := v)]) else b
  }

  /** Starts playback of a live stream. */
  function Play(b: Backend, h: int): (r: Backend)
    requires Wf(b)
    ensures Wf(r) && SameOutside(b, r, {h})
    ensures IsLive(b, h) ==> r.channels[h] == b.channels[h].(playing := true)
    ensures !IsLive(b, h) ==> r == b
  {
    if IsLive(b, h) then b.(channels := b.channels[h := b.channels[h].(playing := true)]) else b
  }

  /** Stops a live stream; also what happens when a stream plays to its end. */
  function Stop(b: Backend, h: int): (r: Backend)
    requires Wf(b)
    ensures Wf(r) && SameOutside(b, r, {h})
    ensures IsLive(b, h) ==> r.channels[h] == b.channels[h].(playing := false)
    ensures !IsLive(b, h) ==> r == b
    ensures !IsPlaying(r, h)
  {
    if IsLive(b, h) then b.(channels := b.channels[h := b.channels[h].(playing := false)]) else b
  }

  /** Releases a stream: every call on a created handle is counted, so a
      second release of the same handle shows up as `freeCalls == 2`. */
  function Free(b: Backend, h: int): (r: Backend)
    requires Wf(b)
    ensures Wf(r) && SameOutside(b, r, {h})
    ensures h in b.channels ==> r.channels[h] == b.channels[h].(freeCalls := b.channels[h].freeCalls + 1)
    ensures h !in b.channels ==> r == b
    ensures !IsLive(r, h)
  {
    if h in b.channels then
      b.(channels := b.channels[h := b.channels[h].(freeCalls := b.channels[h].freeCalls + 1)])
    else b
  }
}
