/**
 * The transport bar: the play/pause button, the volume icon and slider,
 * and the playback-speed menu.
 */
module Controls {
  import opened Wrappers
  import opened Types
  import opened PlayerContext

  /** The speeds the menu offers, slowest first. */
  const PlaybackSpeeds: seq<PlaybackSpeed> := [0.5, 0.75, 1.0, 1.25, 1.5, 1.75, 2.0, 2.5, 3.0]

  /** The menu offers every allowed speed and nothing else, once each and in increasing order. */
  lemma SpeedMenuComplete()
    ensures |PlaybackSpeeds| == 9
    ensures forall i, j :: 0 <= i < j < |PlaybackSpeeds| ==> PlaybackSpeeds[i] < PlaybackSpeeds[j]
    ensures forall r: real :: IsPlaybackSpeed(r) ==> r in PlaybackSpeeds
  {
    forall r: real | IsPlaybackSpeed(r) ensures r in PlaybackSpeeds {
      if r == 0.5 { assert PlaybackSpeeds[0] == r; }
      else if r == 0.75 { assert PlaybackSpeeds[1] == r; }
      else if r == 1.0 { assert PlaybackSpeeds[2] == r; }
      else if r == 1.25 { assert PlaybackSpeeds[3] == r; }
      else if r == 1.5 { assert PlaybackSpeeds[4] == r; }
      else if r == 1.75 { assert PlaybackSpeeds[5] == r; }
      else if r == 2.0 { assert PlaybackSpeeds[6] == r; }
      else if r == 2.5 { assert PlaybackSpeeds[7] == r; }
      else { assert PlaybackSpeeds[8] == r; }
    }
  }

  /** One menu row: the speed and whether it is drawn as the current one. */
  datatype SpeedEntry = SpeedEntry(speed: PlaybackSpeed, isCurrent: bool)

  function SpeedMenu(current: real): (r: seq<SpeedEntry>)
    ensures |r| == |PlaybackSpeeds|
    ensures forall i :: 0 <= i < |r| ==> r[i].speed == PlaybackSpeeds[i]
    ensures forall i :: 0 <= i < |r| ==> (r[i].isCurrent <==> PlaybackSpeeds[i] == current)
  {
    seq(|PlaybackSpeeds|, i requires 0 <= i < |PlaybackSpeeds| => SpeedEntry(PlaybackSpeeds[i], PlaybackSpeeds[i] == current))
  }

  /** Whatever the current speed, exactly one row of the menu is highlighted. */
  lemma OneSpeedHighlighted(current: PlaybackSpeed)
    ensures exists i :: 0 <= i < |SpeedMenu(current)| && SpeedMenu(current)[i].isCurrent
    ensures forall i, j ::
      (0 <= i < |SpeedMenu(current)| && 0 <= j < |SpeedMenu(current)|
       && SpeedMenu(current)[i].isCurrent && SpeedMenu(current)[j].isCurrent) ==> i == j
  {
    SpeedMenuComplete();
    var m := SpeedMenu(current);
    var k :| 0 <= k < |PlaybackSpeeds| && PlaybackSpeeds[k] == current;
    assert m[k].isCurrent;
  }

  /** The three volume glyphs. */
  datatype VolumeIcon = Muted | Low | High

  /** `getVolumeIcon`: muted at exactly zero, low below one half, high from one half. */
  function GetVolumeIcon(volume: real): (icon: VolumeIcon)
    ensures icon == Muted <==> volume == 0.0
    ensures icon == Low <==> volume != 0.0 && volume < 0.5
    ensures icon == High <==> volume >= 0.5
  {
    if volume == 0.0 then Muted
    else if volume < 0.5 then Low
    else High
  }

  /** Turning the volume up never shows a quieter icon. */
  lemma VolumeIconMonotone(v: real, w: real)
    requires 0.0 <= v <= w
    ensures GetVolumeIcon(v) == High ==> GetVolumeIcon(w) == High
    ensures GetVolumeIcon(w) == Muted ==> GetVolumeIcon(v) == Muted
  {
  }

  /** The play button's label: "Pause" while playing, "Play" while paused or loading. */
  function PlayButtonLabel(state: PlayerState): (r: string)
    ensures r == "Pause" <==> state == Playing
    ensures r == "Play" <==> state != Playing
  {
    if state == Playing then "Pause" else "Play"
  }

  /** The bar's own state: whether the speed menu is open. */
  class ControlsState {
    var showSpeedMenu: bool

    constructor()
      ensures !showSpeedMenu
    {
      showSpeedMenu := false;
    }

    /** `toggleSpeedMenu`. */
    method ToggleSpeedMenu()
      modifies this
      ensures showSpeedMenu == !old(showSpeedMenu)
    {
      showSpeedMenu := !showSpeedMenu;
    }

    /** A click on a menu row: sets the speed and closes the menu. */
    method SelectSpeed(speed: PlaybackSpeed, player: PlayerProvider)
      modifies this, player`audioRate, player`playbackSpeed
      ensures !showSpeedMenu
      ensures player.hasAudio ==> player.playbackSpeed == speed && player.audioRate == speed
      ensures !player.hasAudio ==> unchanged(player)
    {
      player.SetPlaybackSpeed(speed);
      showSpeedMenu := false;
    }

    /** `handleVolumeChange`: the slider's value, already a number, goes to the player. */
    method HandleVolumeChange(value: real, player: PlayerProvider)
      modifies player`audioVolume, player`volume
      ensures player.hasAudio ==> player.volume == value && player.audioVolume == value
      ensures !player.hasAudio ==> unchanged(player)
    {
      player.SetVolume(value);
    }
  }
}
