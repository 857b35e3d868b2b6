/**
 * The playback state mirror. The audio element is the environment: its
 * own time, volume and rate are fields here, the notifications it emits are
 * `MediaEvent`s handed to `HandleEvent`, and the promise a `play()` call
 * returns is settled later through `SettlePlay`. `hasAudio` false stands
 * for "no audio element": no listener is registered and every command that
 * needs the element does nothing.
 */
module PlayerContext {
  import opened Wrappers
  import opened Types

  /** The notifications the provider listens to; time and duration carry the element's new value. */
  datatype MediaEvent =
    | TimeUpdate(elementTime: real)
    | DurationChange(elementDuration: real)
    | Play
    | Pause
    | Ended
    | LoadStart
    | CanPlay

  /** What a command asks of the element; the element answers later with events. */
  datatype ElementCall = CallPlay | CallPause

  /** Seconds the skip buttons move the element by. */
  const SkipSeconds: real := 15.0

  class PlayerProvider {
    var currentEpisode: Option<Episode>
    var playerState: PlayerState
    var duration: real
    var currentTime: real
    var volume: real
    var playbackSpeed: PlaybackSpeed
    var isAnnotationPanelOpen: bool

    /** Whether the audio element is mounted. */
    const hasAudio: bool
    /** The element's own `currentTime`, `volume` and `playbackRate`. */
    var audioTime: real
    var audioVolume: real
    var audioRate: real
    /** `play()` promises started by `playEpisode` and not yet settled. */
    var pendingPlays: nat

    /**
     * The initial state: no episode, paused, zero time and duration,
     * volume 0.8, normal speed, panel open. The element starts with its
     * own defaults (time 0, volume 1, rate 1), which are not synchronised.
     */
    constructor(hasAudio: bool)
      ensures this.hasAudio == hasAudio
      ensures currentEpisode == None && playerState == Paused
      ensures duration == 0.0 && currentTime == 0.0
      ensures volume == 0.8 && playbackSpeed == 1.0 && isAnnotationPanelOpen
      ensures audioTime == 0.0 && audioVolume == 1.0 && audioRate == 1.0 && pendingPlays == 0
    {
      this.hasAudio := hasAudio;
      currentEpisode := None;
      playerState := Paused;
      duration := 0.0;
      currentTime := 0.0;
      volume := 0.8;
      playbackSpeed := 1.0;
      isAnnotationPanelOpen := true;
      audioTime := 0.0;
      audioVolume := 1.0;
      audioRate := 1.0;
      pendingPlays := 0;
    }

    /**
     * The seven listeners. `timeupdate` and `durationchange` copy the
     * element's values, `play`, `pause` and `loadstart` set the state,
     * `ended` pauses and rewinds the mirrored time, and `canplay` only
     * ends a load. Without an element no listener is registered. The
     * element never reports a negative duration, so the mirrored duration
     * stays non-negative, as the timeline's handlers need.
     */
    method HandleEvent(e: MediaEvent)
      requires e.DurationChange? ==> e.elementDuration >= 0.0
      modifies this`playerState, this`currentTime, this`duration, this`audioTime
      ensures currentEpisode == old(currentEpisode) && volume == old(volume)
      ensures playbackSpeed == old(playbackSpeed) && isAnnotationPanelOpen == old(isAnnotationPanelOpen)
      ensures audioVolume == old(audioVolume) && audioRate == old(audioRate) && pendingPlays == old(pendingPlays)
      ensures old(duration) >= 0.0 ==> duration >= 0.0
      ensures !hasAudio ==>
        playerState == old(playerState) && currentTime == old(currentTime)
        && duration == old(duration) && audioTime == old(audioTime)
      ensures hasAudio && e.TimeUpdate? ==>
        audioTime == e.elementTime && currentTime == e.elementTime
        && playerState == old(playerState) && duration == old(duration)
      ensures hasAudio && e.DurationChange? ==>
        duration == e.elementDuration
        && playerState == old(playerState) && currentTime == old(currentTime) && audioTime == old(audioTime)
      ensures hasAudio && e.Play? ==>
        playerState == Playing
        && currentTime == old(currentTime) && duration == old(duration) && audioTime == old(audioTime)
      ensures hasAudio && e.Pause? ==>
        playerState == Paused
        && currentTime == old(currentTime) && duration == old(duration) && audioTime == old(audioTime)
      ensures hasAudio && e.Ended? ==>
        playerState == Paused && currentTime == 0.0
        && duration == old(duration) && audioTime == old(audioTime)
      ensures hasAudio && e.LoadStart? ==>
        playerState == Loading
        && currentTime == old(currentTime) && duration == old(duration) && audioTime == old(audioTime)
      ensures hasAudio && e.CanPlay? ==>
        playerState == (if old(playerState) == Loading then Paused else old(playerState))
        && currentTime == old(currentTime) && duration == old(duration) && audioTime == old(audioTime)
    {
      if !hasAudio {
        return;
      }
      match e
      case TimeUpdate(t) =>
        audioTime := t;
        currentTime := t;
      case DurationChange(d) =>
        duration := d;
      case Play =>
        playerState := Playing;
      case Pause =>
        playerState := Paused;
      case Ended =>
        playerState := Paused;
        currentTime := 0.0;
      case LoadStart =>
        playerState := Loading;
      case CanPlay =>
        if playerState == Loading {
          playerState := Paused;
        }
    }

    /**
     * `playEpisode`: at once the episode becomes current and the state
     * loading, whether or not there is an element; with an element a
     * `play()` is started whose outcome arrives through `SettlePlay`.
     */
    method PlayEpisode(episode: Episode)
      modifies this`currentEpisode, this`playerState, this`pendingPlays
      ensures currentEpisode == Some(episode) && playerState == Loading
      ensures pendingPlays == if hasAudio then old(pendingPlays) + 1 else old(pendingPlays)
      ensures duration == old(duration) && currentTime == old(currentTime) && volume == old(volume)
      ensures playbackSpeed == old(playbackSpeed) && isAnnotationPanelOpen == old(isAnnotationPanelOpen)
      ensures audioTime == old(audioTime) && audioVolume == old(audioVolume) && audioRate == old(audioRate)
    {
      currentEpisode := Some(episode);
      playerState := Loading;
      if hasAudio {
        pendingPlays := pendingPlays + 1;
      }
    }

    /**
     * The outcome of one pending `play()` started by `playEpisode`: playing
     * on success, paused on failure. Nothing ties the outcome to the
     * episode that started it, so an older load can settle the state of a
     * newer one.
     */
    method SettlePlay(succeeded: bool)
      requires pendingPlays > 0
      modifies this`playerState, this`pendingPlays
      ensures playerState == if succeeded then Playing else Paused
      ensures pendingPlays == old(pendingPlays) - 1
      ensures currentEpisode == old(currentEpisode) && duration == old(duration) && currentTime == old(currentTime)
      ensures volume == old(volume) && playbackSpeed == old(playbackSpeed)
      ensures isAnnotationPanelOpen == old(isAnnotationPanelOpen)
      ensures audioTime == old(audioTime) && audioVolume == old(audioVolume) && audioRate == old(audioRate)
    {
      playerState := if succeeded then Playing else Paused;
      pendingPlays := pendingPlays - 1;
    }

    /**
     * `togglePlayPause`: asks the element to pause when playing and to play
     * otherwise; the state itself changes only when the element's `play` or
     * `pause` event arrives.
     */
    method TogglePlayPause() returns (call: Option<ElementCall>)
      ensures call.Some? <==> hasAudio
      ensures call == Some(CallPause) <==> hasAudio && playerState == Playing
      ensures call == Some(CallPlay) <==> hasAudio && playerState != Playing
    {
      if !hasAudio {
        return None;
      }
      if playerState == Playing {
        call := Some(CallPause);
      } else {
        call := Some(CallPlay);
      }
    }

    /** `seek`: the element and the mirror both move to exactly `time`, unclamped. */
    method Seek(time: real)
      modifies this`audioTime, this`currentTime
      ensures hasAudio ==> audioTime == time && currentTime == time
      ensures !hasAudio ==> audioTime == old(audioTime) && currentTime == old(currentTime)
      ensures currentEpisode == old(currentEpisode) && playerState == old(playerState) && duration == old(duration)
      ensures volume == old(volume) && playbackSpeed == old(playbackSpeed)
      ensures isAnnotationPanelOpen == old(isAnnotationPanelOpen)
      ensures audioVolume == old(audioVolume) && audioRate == old(audioRate) && pendingPlays == old(pendingPlays)
    {
      if !hasAudio {
        return;
      }
      audioTime := time;
      currentTime := time;
    }

    /** `skipForward`: only the element moves, by 15 seconds, unclamped; the mirror waits for `timeupdate`. */
    method SkipForward()
      modifies this`audioTime
      ensures audioTime == if hasAudio then old(audioTime) + SkipSeconds else old(audioTime)
    {
      if !hasAudio {
        return;
      }
      audioTime := audioTime + SkipSeconds;
    }

    /** `skipBackward`: only the element moves, back 15 seconds, unclamped. */
    method SkipBackward()
      modifies this`audioTime
      ensures audioTime == if hasAudio then old(audioTime) - SkipSeconds else old(audioTime)
    {
      if !hasAudio {
        return;
      }
      audioTime := audioTime - SkipSeconds;
    }

    /** `setVolume`: element and mirror take the value as given. */
    method SetVolume(value: real)
      modifies this`audioVolume, this`volume
      ensures hasAudio ==> audioVolume == value && volume == value
      ensures !hasAudio ==> audioVolume == old(audioVolume) && volume == old(volume)
    {
      if !hasAudio {
        return;
      }
      audioVolume := value;
      volume := value;
    }

    /** `setPlaybackSpeed`: element rate and mirror take the speed. */
    method SetPlaybackSpeed(speed: PlaybackSpeed)
      modifies this`audioRate, this`playbackSpeed
      ensures hasAudio ==> audioRate == speed && playbackSpeed == speed
      ensures !hasAudio ==> audioRate == old(audioRate) && playbackSpeed == old(playbackSpeed)
    {
      if !hasAudio {
        return;
      }
      audioRate := speed;
      playbackSpeed := speed;
    }

    /** `toggleAnnotationPanel`: flips the panel flag; it needs no element. */
    method ToggleAnnotationPanel()
      modifies this`isAnnotationPanelOpen
      ensures isAnnotationPanelOpen == !old(isAnnotationPanelOpen)
    {
      isAnnotationPanelOpen := !isAnnotationPanelOpen;
    }
  }

  /** Toggling the panel twice restores it, and nothing else of the provider moves. */
  method TogglePanelTwice(p: PlayerProvider)
    modifies p`isAnnotationPanelOpen
    ensures unchanged(p)
  {
    p.ToggleAnnotationPanel();
    p.ToggleAnnotationPanel();
  }

  /**
   * Two loads in a row, the first settling last with a failure: the second
   * episode is current but the state is paused, because the stale outcome is
   * applied as it comes.
   */
  method StaleLoadSettlesNewerEpisode(a: Episode, b: Episode) returns (p: PlayerProvider)
    ensures p.currentEpisode == Some(b) && p.playerState == Paused
  {
    p := new PlayerProvider(true);
    p.PlayEpisode(a);
    p.PlayEpisode(b);
    p.SettlePlay(true);
    p.SettlePlay(false);
  }

  /**
   * A skip leaves the mirrored time behind: right after it only the
   * element has moved, and the mirror catches up with the element's next
   * `timeupdate`.
   */
  method SkipThenTimeUpdate(p: PlayerProvider) returns (afterSkip: real, elementAfterSkip: real)
    requires p.hasAudio
    modifies p`audioTime, p`currentTime, p`playerState, p`duration
    ensures afterSkip == old(p.currentTime) && elementAfterSkip == old(p.audioTime) + SkipSeconds
    ensures p.currentTime == p.audioTime == old(p.audioTime) + SkipSeconds
    ensures p.playerState == old(p.playerState) && p.duration == old(p.duration)
  {
    p.SkipForward();
    afterSkip := p.currentTime;
    elementAfterSkip := p.audioTime;
    p.HandleEvent(TimeUpdate(p.audioTime));
  }
}
