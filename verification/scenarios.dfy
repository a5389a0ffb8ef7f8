/** Sequences of handlers, in the order the page's listeners run them, and
    what the control bar looks like afterwards. A media element event that a
    handler causes (`play`, `pause`, `volumechange`) runs its listener after
    the handler has finished, so it appears here as the next call. */
module PlayerScenarios {
  import opened TimeFormat
  import opened VideoPlayer

  /** A click on the play button runs togglePlay; when that flips the paused
      state, the media element fires `play` or `pause`, which runs
      updatePlayButton. The button goes on agreeing with the media element. */
  method ClickPlayButton(p: Player)
    requires p.Valid() && p.PlayButtonMatches()
    modifies p, p.playbackIconHidden
    ensures p.Valid() && p.PlayButtonMatches()
    ensures p.paused <==> !(old(p.paused) || old(p.ended))
  {
    var wasPaused := p.paused;
    var _ := p.TogglePlay();
    if p.paused != wasPaused {
      ghost var before := p.playbackIconHidden[..];
      p.UpdatePlayButton();
      FlipSwapsShownIcon(before, if wasPaused then PlayIcon else PauseIcon);
    }
  }

  /** Two clicks on the volume button, starting unmuted, give back the
      slider's value and leave the media element's volume alone. */
  method MuteTwice(p: Player)
    requires p.Valid() && !p.muted
    modifies p
    ensures p.Valid() && !p.muted
    ensures p.volumeSlider == old(p.volumeSlider) && p.volume == old(p.volume)
    ensures p.cachedVolume == Some(old(p.volumeSlider))
  {
    p.ToggleMute();
    p.ToggleMute();
  }

  /** A click on the volume button: toggleMute, then `volumechange` runs
      updateVolumeIcon. Muting always shows the mute icon and the label
      "unmute (m)". */
  method ClickVolumeButton(p: Player)
    requires p.Valid()
    modifies p, p.volumeIconHidden
    ensures p.Valid() && p.VolumeButtonMatches()
    ensures p.muted == !old(p.muted)
    ensures p.muted ==> !p.volumeIconHidden[IconIndex(MuteTier)] && p.volumeTitle == UnmuteLabel
  {
    p.ToggleMute();
    p.UpdateVolumeIcon();
  }

  /** Dragging the volume slider to `v`: updateVolume, then, when that
      changed `muted` or `volume`, `volumechange` runs updateVolumeIcon. A
      volume button that agreed before agrees after: the video is unmuted at
      volume `v`, and the mute icon is shown exactly when `v` is 0. */
  method DragVolumeSlider(p: Player, v: real)
    requires p.Valid() && p.VolumeButtonMatches() && 0.0 <= v <= 1.0
    modifies p, p.volumeIconHidden
    ensures p.Valid() && p.VolumeButtonMatches()
    ensures !p.muted && p.volume == v
    ensures !p.volumeIconHidden[IconIndex(MuteTier)] <==> v == 0.0
  {
    var wasMuted, oldVolume := p.muted, p.volume;
    p.volumeSlider := v;
    p.UpdateVolume();
    if wasMuted || oldVolume != v {
      p.UpdateVolumeIcon();
    }
  }

  /** Committing a seek twice lands on the same position both times. */
  method SeekTwice(p: Player)
    modifies p
    ensures p.currentTime == old(p.SkipTarget()) as real
    ensures p.progressValue == p.seekValue == old(p.SkipTarget())
  {
    p.SkipAhead();
    ghost var once := (p.currentTime, p.progressValue, p.seekValue);
    p.SkipAhead();
    assert (p.currentTime, p.progressValue, p.seekValue) == once;
  }

  /** Once the pointer has hovered over the seek track, moving the slider by
      other means (the arrow keys, say) still seeks to the hovered position:
      the stored target wins over the slider's new value. */
  method SeekAfterHover(p: Player, offsetX: real, width: real, sliderValue: int)
    requires width > 0.0
    modifies p
    ensures p.currentTime == TooltipTarget(offsetX, width, p.seekMax) as real
    ensures p.seekValue == TooltipTarget(offsetX, width, p.seekMax)
  {
    p.UpdateSeekTooltip(offsetX, width);
    p.seekValue := sliderValue;
    p.SkipAhead();
  }

  /** A 125-second video: loadedmetadata runs initializeVideo, which ends
      both tracks at 125 and labels the duration "02:05"; the pointer halfway
      along the track then targets 63 s, shown as "01:03". */
  method LoadAndHoverHalfway(p: Player, width: real)
    requires p.duration == 125.0 && width > 0.0
    modifies p
    ensures p.seekMax == p.progressMax == 125
    ensures p.durationText == "02:05"
    ensures p.dataSeek == Some(63) && p.tooltipText == "01:03"
  {
    p.InitializeVideo();
    assert RoundHalfUp(125.0) == 125;
    FormatTimeExamples();
    p.UpdateSeekTooltip(width / 2.0, width);
    HalfwayAlongTrack(width);
  }

  /** Leaving the video while it is paused never hides the controls. */
  method HoverLeaveWhilePaused(p: Player)
    requires p.paused && !p.controlsHidden
    modifies p
    ensures !p.controlsHidden
  {
    p.HideControls();
  }

  /** Pressing `k` three times from paused plays, pauses and plays again; the
      first delayed hide is not cancelled, so two are pending, and the first
      of them hides the controls while the video plays. */
  method RapidPlayKey(p: Player)
    requires p.Valid() && p.paused && !p.ended
    modifies p
    ensures p.Valid() && !p.paused
    ensures p.pendingHides == old(p.pendingHides) + 1
    ensures p.controlsHidden
  {
    var s := p.KeyboardShortcuts("k");
    assert !p.paused;
    s := p.KeyboardShortcuts("k");
    assert p.paused && !p.controlsHidden;
    s := p.KeyboardShortcuts("k");
    assert !p.paused && p.pendingHides == old(p.pendingHides) + 2;
    p.HideTimerFires();
  }
}
