/** The playback checkpoint monitor: the video player component, its imperative commands,
    the ready and state-change events of the embedded player, and the sampling tick. */
module Playback {
  import opened Wrappers

  /** `playerRef.current`: no backend yet, or one created by `initializePlayer`, whose
      methods (`seekTo`, `playVideo`, `pauseVideo`, `getCurrentTime`) are attached once it
      reports ready. */
  datatype Backend = Absent | Created(apiAttached: bool)

  /** A call made on the backend. */
  datatype BackendCall = SeekTo(at: Option<real>) | PlayVideo | PauseVideo

  /** A state reported by the backend's `onStateChange`; only `ENDED` is acted on. */
  datatype PlayerState = Ended | OtherState(code: int)

  /** `time >= end`, where a missing `end` compares false. */
  function ReachedEnd(time: real, end: Option<real>): (b: bool)
    ensures end.None? ==> !b
    ensures end.Some? && time < end.value ==> !b
    ensures end.Some? && time >= end.value ==> b
  {
    match end
    case None => false
    case Some(e) => time >= e
  }

  /** Every field of the video player at one moment. */
  datatype Snapshot = Snapshot(
    backend: Backend,
    isReady: bool,
    isPaused: bool,
    currentTime: real,
    sampling: bool,
    calls: seq<BackendCall>)

  class VideoPlayer {
    const videoId: string
    const start: Option<real>
    const end: Option<real>
    var backend: Backend
    var isReady: bool
    var isPaused: bool
    var currentTime: real
    var sampling: bool                   // the sampling interval is running
    var calls: seq<BackendCall>          // what the backend has been asked to do
    ghost var samplerCheckpoints: nat    // checkpoints emitted by the running sampler

    ghost function State(): Snapshot
      reads this
    {
      Snapshot(backend, isReady, isPaused, currentTime, sampling, calls)
    }

    /** The backend's methods are there exactly once it is ready; only a ready player is
        sampled; a running sampler has not emitted, and no sampler emits twice. */
    ghost predicate Valid()
      reads this
    {
      && (isReady <==> backend == Created(true))
      && (sampling ==> isReady && samplerCheckpoints == 0)
      && samplerCheckpoints <= 1
    }

    /** The guard of every command: a backend with its methods. */
    predicate Controllable()
      reads this
    {
      backend.Created? && backend.apiAttached
    }

    constructor (videoId: string, start: Option<real>, end: Option<real>)
      ensures Valid()
      ensures this.videoId == videoId && this.start == start && this.end == end
      ensures State() == Snapshot(Absent, false, false, 0.0, false, [])
    {
      this.videoId, this.start, this.end := videoId, start, end;
      backend, isReady, isPaused, currentTime, sampling, calls := Absent, false, false, 0.0, false, [];
      samplerCheckpoints := 0;
    }

    /** `playFrom(newStart)`: seek and play, only on a backend that has `seekTo`. */
    method PlayFrom(newStart: Option<real>)
      requires Valid()
      modifies this
      ensures Valid()
      ensures old(Controllable()) ==>
        State() == old(State()).(calls := old(calls) + [SeekTo(newStart), PlayVideo], isPaused := false)
      ensures !old(Controllable()) ==> State() == old(State())
    {
      if Controllable() {
        calls := calls + [SeekTo(newStart), PlayVideo];
        isPaused := false;
      }
    }

    /** `resume`: play, only on a backend that has `playVideo`. */
    method Resume()
      requires Valid()
      modifies this
      ensures Valid()
      ensures old(Controllable()) ==> State() == old(State()).(calls := old(calls) + [PlayVideo], isPaused := false)
      ensures !old(Controllable()) ==> State() == old(State())
    {
      if Controllable() {
        calls := calls + [PlayVideo];
        isPaused := false;
      }
    }

    /** `pause`: pause, only on a backend that has `pauseVideo`. */
    method Pause()
      requires Valid()
      modifies this
      ensures Valid()
      ensures old(Controllable()) ==> State() == old(State()).(calls := old(calls) + [PauseVideo], isPaused := true)
      ensures !old(Controllable()) ==> State() == old(State())
    {
      if Controllable() {
        calls := calls + [PauseVideo];
        isPaused := true;
      }
    }

    /** `initializePlayer`: creates the backend, unless one already exists. */
    method InitializePlayer()
      requires Valid()
      modifies this
      ensures Valid()
      ensures old(backend).Absent? ==> State() == old(State()).(backend := Created(false))
      ensures !old(backend).Absent? ==> State() == old(State())
    {
      if backend.Absent? {
        backend := Created(false);
      }
    }

    /** The backend's `onReady`: the player is ready and sampling starts; the effect on
        `isReady` then restarts playback through `playFrom(start)` when `start` is defined. */
    method OnReady()
      requires Valid()
      modifies this
      ensures Valid()
      ensures old(backend).Created? ==> isReady && sampling && backend == Created(true)
      ensures old(backend).Created? && !old(isReady) && start.Some? ==>
        State() == old(State()).(backend := Created(true), isReady := true, sampling := true,
                                 calls := old(calls) + [SeekTo(start), PlayVideo], isPaused := false)
      ensures old(backend).Created? && (old(isReady) || start.None?) ==>
        State() == old(State()).(backend := Created(true), isReady := true, sampling := true)
      ensures old(backend).Absent? ==> State() == old(State())
    {
      if backend.Created? {
        var wasReady := isReady;
        backend, isReady := Created(true), true;
        sampling, samplerCheckpoints := true, 0;
        if !wasReady && start.Some? {
          PlayFrom(start);
        }
      }
    }

    /** The backend's `onStateChange`: `ENDED` emits a checkpoint at once, whatever the
        sampler is doing; no other state changes anything. */
    method OnStateChange(state: PlayerState) returns (checkpoint: bool)
      requires Valid()
      modifies this
      ensures Valid()
      ensures checkpoint <==> state == Ended
      ensures State() == old(State())
    {
      checkpoint := state == Ended;
    }

    /** One tick of the sampling interval, `time` being what `getCurrentTime` reports. A tick
        reaching `end` pauses the video, emits the checkpoint and stops the sampler, so no
        later tick emits; with no sampler or no backend methods, nothing happens. */
    method Tick(time: real) returns (checkpoint: bool)
      requires Valid()
      modifies this
      ensures Valid()
      ensures !(old(sampling) && old(Controllable())) ==> !checkpoint && State() == old(State())
      ensures old(sampling) && old(Controllable()) && !ReachedEnd(time, end) ==>
        !checkpoint && State() == old(State()).(currentTime := time)
      ensures old(sampling) && old(Controllable()) && ReachedEnd(time, end) ==>
        && checkpoint && samplerCheckpoints == 1
        && State() == old(State()).(currentTime := time, calls := old(calls) + [PauseVideo],
                                    isPaused := true, sampling := false)
    {
      checkpoint := false;
      if sampling && Controllable() {
        currentTime := time;
        if ReachedEnd(time, end) {
          calls := calls + [PauseVideo];
          isPaused := true;
          checkpoint := true;
          samplerCheckpoints := samplerCheckpoints + 1;
          sampling := false;
        }
      }
    }
  }
}
