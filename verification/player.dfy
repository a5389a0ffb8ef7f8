/** The custom control bar of index.js as one object: the fields copy the DOM
    properties the event handlers read and write (the media element's state,
    the volume slider, the seek track and progress bar, the labels, the icons'
    `hidden` classes and the overlay's `hide` class), and each handler is a
    method that updates them in place. */
module VideoPlayer {
  import opened TimeFormat

  datatype Option<T> = None | Some(value: T)

  /** What `togglePlay` asks of the media element. */
  datatype PlaybackRequest = Play | Pause

  /** The three volume icons, from quiet to loud. */
  datatype VolumeTier = MuteTier | LowTier | HighTier

  /** The actions `keyboardShortcuts` dispatches to. */
  datatype Shortcut = PlayPauseKey | MuteKey | FullscreenKey | PipKey | NoShortcut

  // Positions in the `.playback-icons use` list.
  const PlayIcon := 0
  const PauseIcon := 1

  const PlayLabel := "Play (k)"
  const PauseLabel := "Pause (k)"
  const MuteLabel := "Mute (m)"
  const UnmuteLabel := "unmute (m)"

  /** The value a range input from 0 to 1 takes when it is assigned something
      that is not a number, such as `undefined`: its default value, the
      midpoint of its minimum and maximum. */
  const VolumeRangeDefault: real := 0.5

  /** The slider value unmuting puts back: the cached `data-volume`, or, when
      nothing was cached, `undefined`, which the slider turns into its default
      value. Either way it is a position the slider can take. */
  function RestoredVolume(cache: Option<real>): (v: real)
    requires cache.Some? ==> 0.0 <= cache.value <= 1.0
    ensures 0.0 <= v <= 1.0
    ensures cache.Some? ==> v == cache.value
    ensures cache.None? ==> v == VolumeRangeDefault
  {
    match cache
    case Some(v) => v
    case None => VolumeRangeDefault
  }

  /** `Math.round`: the nearest integer, halves rounded up. */
  function RoundHalfUp(x: real): (r: int)
    ensures r as real - 0.5 <= x < r as real + 0.5
  {
    (x + 0.5).Floor
  }

  /** Which volume icon `updateVolumeIcon` reveals. */
  function Tier(muted: bool, volume: real): (t: VolumeTier)
    ensures t == MuteTier <==> muted || volume == 0.0
    ensures t == LowTier <==> !muted && 0.0 < volume <= 0.5
    ensures t == HighTier <==> !muted && (volume < 0.0 || 0.5 < volume)
  {
    if muted || volume == 0.0 then MuteTier
    else if 0.0 < volume <= 0.5 then LowTier
    else HighTier
  }

  /** The position of a tier's icon in the `.volume-button use` list. */
  function IconIndex(t: VolumeTier): nat {
    match t
    case MuteTier => 0
    case LowTier => 1
    case HighTier => 2
  }

  /** `hidden` classes in which icon `i` is the only one shown. */
  predicate OnlyShown(hidden: seq<bool>, i: int) {
    0 <= i < |hidden| && forall j :: 0 <= j < |hidden| ==> (hidden[j] <==> j != i)
  }

  predicate ExactlyOneShown(hidden: seq<bool>) {
    exists i :: 0 <= i < |hidden| && OnlyShown(hidden, i)
  }

  /** Every `hidden` class toggled, as `classList.toggle` does to each icon. */
  function Flipped(hidden: seq<bool>): (r: seq<bool>)
    ensures |r| == |hidden|
    ensures forall j :: 0 <= j < |hidden| ==> r[j] != hidden[j]
  {
    seq(|hidden|, j requires 0 <= j < |hidden| => !hidden[j])
  }

  /** With two icons, toggling both keeps "exactly one shown" and swaps which
      one it is. */
  lemma FlipSwapsShownIcon(hidden: seq<bool>, i: int)
    requires |hidden| == 2 && OnlyShown(hidden, i)
    ensures OnlyShown(Flipped(hidden), 1 - i)
  {
  }

  /** Toggling two icons keeps "exactly one shown" in both directions. */
  lemma FlipKeepsExactlyOne(hidden: seq<bool>)
    requires |hidden| == 2
    ensures ExactlyOneShown(Flipped(hidden)) <==> ExactlyOneShown(hidden)
  {
    if ExactlyOneShown(hidden) {
      var i :| OnlyShown(hidden, i);
      FlipSwapsShownIcon(hidden, i);
    }
    if ExactlyOneShown(Flipped(hidden)) {
      var i :| OnlyShown(Flipped(hidden), i);
      assert Flipped(Flipped(hidden)) == hidden;
      FlipSwapsShownIcon(Flipped(hidden), i);
    }
  }

  lemma MulNonneg(a: real, b: real)
    requires 0.0 <= a && 0.0 <= b
    ensures 0.0 <= a * b
  {
  }

  /** A point on a track of positive width lies at a fraction between 0 and
      1 of it. */
  lemma FractionAtMostOne(offset: real, width: real)
    requires 0.0 <= offset <= width && 0.0 < width
    ensures 0.0 <= offset / width <= 1.0
  {
    var fraction := offset / width;
    assert fraction * width == offset;
    if fraction < 0.0 {
      MulPos(-fraction, width);
    } else if fraction > 1.0 {
      MulPos(fraction - 1.0, width);
    }
  }

  lemma MulPos(a: real, b: real)
    requires 0.0 < a && 0.0 < b
    ensures 0.0 < a * b
  {
  }

  /** The seek position under the pointer, as `updateSeekTooltip` computes it
      from the pointer's offset into the track, the track's width and the
      track's `max`. */
  function TooltipTarget(offsetX: real, width: real, max: int): (r: int)
    requires width > 0.0
    ensures r as real - 0.5 <= offsetX / width * max as real < r as real + 0.5
    ensures 0.0 <= offsetX <= width && 0 <= max ==> 0 <= r <= max
  {
    var fraction := offsetX / width;
    var x := fraction * max as real;
    assert 0.0 <= offsetX <= width && 0 <= max ==> 0.0 <= x <= max as real by {
      if 0.0 <= offsetX <= width && 0 <= max {
        FractionAtMostOne(offsetX, width);
        MulNonneg(fraction, max as real);
        MulNonneg(1.0 - fraction, max as real);
      }
    }
    RoundHalfUp(x)
  }

  /** The pointer halfway along a 125-second track targets 63 s (62.5
      rounded up), shown as "01:03". */
  lemma HalfwayAlongTrack(width: real)
    requires width > 0.0
    ensures TooltipTarget(width / 2.0, width, 125) == 63
    ensures ClockText(FormatTime(63)) == "01:03"
  {
    assert width / 2.0 / width == 0.5;
    FormatTimeFields(63);
  }

  /** The key each shortcut answers to in `keyboardShortcuts`; every other key
      does nothing. */
  function ShortcutFor(key: string): (s: Shortcut)
    ensures s == PlayPauseKey <==> key == "k"
    ensures s == MuteKey <==> key == "m"
    ensures s == FullscreenKey <==> key == "f"
    ensures s == PipKey <==> key == "p"
    ensures s == NoShortcut <==> key !in {"k", "m", "f", "p"}
  {
    if key == "k" then PlayPauseKey
    else if key == "m" then MuteKey
    else if key == "f" then FullscreenKey
    else if key == "p" then PipKey
    else NoShortcut
  }

  class Player {
    // The media element.
    var paused: bool
    var ended: bool
    var muted: bool
    var volume: real
    var currentTime: real
    var duration: real

    // The play button: the `hidden` class of its two icons, and its label.
    const playbackIconHidden: array<bool>
    var playTitle: string

    // The volume control: the slider, its `data-volume` cache, the `hidden`
    // class of the mute, low and high icons, and the button's label.
    var volumeSlider: real
    var cachedVolume: Option<real>
    const volumeIconHidden: array<bool>
    var volumeTitle: string

    // The seek slider, its `data-seek` target and tooltip, and the progress bar.
    var seekValue: int
    var seekMax: int
    var dataSeek: Option<int>
    var tooltipText: string
    var progressValue: int
    var progressMax: int

    // The duration and elapsed-time labels, with their `datetime` attributes.
    var durationText: string
    var durationDatetime: string
    var elapsedText: string
    var elapsedDatetime: string

    // The overlay's `hide` class, and the delayed hides scheduled by the `k`
    // shortcut that have not yet fired.
    var controlsHidden: bool
    var pendingHides: nat

    ghost predicate Valid()
      reads this
    {
      playbackIconHidden.Length == 2 && volumeIconHidden.Length == 3 &&
      playbackIconHidden != volumeIconHidden &&
      0.0 <= volume <= 1.0 && 0.0 <= volumeSlider <= 1.0 &&
      (cachedVolume.Some? ==> 0.0 <= cachedVolume.value <= 1.0)
    }

    /** The play button agrees with the media element: the play icon alone is
        shown, labelled "Play (k)", exactly while paused. */
    ghost predicate PlayButtonMatches()
      reads this, playbackIconHidden
    {
      OnlyShown(playbackIconHidden[..], if paused then PlayIcon else PauseIcon) &&
      playTitle == if paused then PlayLabel else PauseLabel
    }

    /** The volume button agrees with the media element. */
    ghost predicate VolumeButtonMatches()
      reads this, volumeIconHidden
    {
      OnlyShown(volumeIconHidden[..], IconIndex(Tier(muted, volume))) &&
      volumeTitle == if Tier(muted, volume) == MuteTier then UnmuteLabel else MuteLabel
    }

    /** The target `skipAhead` seeks to: the stored `data-seek` whenever one
        has been set (any number written there is a non-empty, truthy
        string, "0" included), otherwise the slider's own value. */
    function SkipTarget(): int
      reads this
    {
      if dataSeek.Some? then dataSeek.value else seekValue
    }

    /** The page as loaded: the media element's state is given, and the
        controls start in agreement with it, shown, with no cached volume and
        no seek target. */
    constructor (paused: bool, ended: bool, muted: bool, volume: real,
                 currentTime: real, duration: real, volumeSlider: real)
      requires 0.0 <= volume <= 1.0 && 0.0 <= volumeSlider <= 1.0
      ensures Valid() && PlayButtonMatches() && VolumeButtonMatches()
      ensures fresh(playbackIconHidden) && fresh(volumeIconHidden)
      ensures this.paused == paused && this.ended == ended && this.muted == muted
      ensures this.volume == volume && this.currentTime == currentTime
      ensures this.duration == duration && this.volumeSlider == volumeSlider
      ensures cachedVolume == None && dataSeek == None
      ensures !controlsHidden && pendingHides == 0
    {
      this.paused, this.ended, this.muted := paused, ended, muted;
      this.volume, this.currentTime, this.duration := volume, currentTime, duration;
      this.volumeSlider := volumeSlider;
      var shown := if paused then PlayIcon else PauseIcon;
      playbackIconHidden := new bool[2](j => j != shown);
      playTitle := if paused then PlayLabel else PauseLabel;
      var tier := Tier(muted, volume);
      volumeIconHidden := new bool[3](j => j != IconIndex(tier));
      volumeTitle := if tier == MuteTier then UnmuteLabel else MuteLabel;
      cachedVolume, dataSeek := None, None;
      seekValue, seekMax, progressValue, progressMax := 0, 0, 0, 0;
      tooltipText, durationText, elapsedText := "00:00", "00:00", "00:00";
      durationDatetime, elapsedDatetime := "00m 00s", "00m 00s";
      controlsHidden, pendingHides := false, 0;
      new;
      assert playbackIconHidden[..] == seq(2, j => j != shown);
      assert volumeIconHidden[..] == seq(3, j => j != IconIndex(tier));
    }

    /** The media element's `play()`, as far as it takes effect at once:
        a finished video seeks back to the start, and it is no longer paused. */
    method MediaPlay()
      modifies this`paused, this`ended, this`currentTime
      ensures !paused && !ended
      ensures currentTime == if old(ended) then 0.0 else old(currentTime)
    {
      if ended {
        currentTime, ended := 0.0, false;
      }
      paused := false;
    }

    /** The media element's `pause()`: it is paused at once. */
    method MediaPause()
      modifies this`paused
      ensures paused
    {
      paused := true;
    }

    /** togglePlay: play when paused or finished, pause otherwise. */
    method TogglePlay() returns (req: PlaybackRequest)
      modifies this`paused, this`ended, this`currentTime
      ensures req == Play <==> old(paused) || old(ended)
      ensures paused <==> req == Pause
      ensures req == Play ==> !ended && currentTime == if old(ended) then 0.0 else old(currentTime)
      ensures req == Pause ==> ended == old(ended) && currentTime == old(currentTime)
    {
      if paused || ended {
        req := Play;
        MediaPlay();
      } else {
        req := Pause;
        MediaPause();
      }
    }

    /** updatePlayButton, run on the `play` and `pause` events: toggles both
        playback icons and labels the button by the paused state. */
    method UpdatePlayButton()
      requires Valid()
      modifies playbackIconHidden, this`playTitle
      ensures Valid()
      ensures playbackIconHidden[..] == Flipped(old(playbackIconHidden[..]))
      ensures ExactlyOneShown(playbackIconHidden[..]) <==> old(ExactlyOneShown(playbackIconHidden[..]))
      ensures playTitle == PlayLabel <==> paused
      ensures playTitle == if paused then PlayLabel else PauseLabel
    {
      for i := 0 to playbackIconHidden.Length
        invariant forall j :: 0 <= j < i ==> playbackIconHidden[j] == !old(playbackIconHidden[j])
        invariant forall j :: i <= j < playbackIconHidden.Length ==> playbackIconHidden[j] == old(playbackIconHidden[j])
      {
        playbackIconHidden[i] := !playbackIconHidden[i];
      }
      FlipKeepsExactlyOne(old(playbackIconHidden[..]));
      if paused {
        playTitle := PlayLabel;
      } else {
        playTitle := PauseLabel;
      }
    }

    /** initializeVideo, run once the metadata is loaded: the seek slider and
        the progress bar both end at the rounded duration, which the duration
        label shows as "mm:ss". */
    method InitializeVideo()
      modifies this`seekMax, this`progressMax, this`durationText, this`durationDatetime
      ensures seekMax == progressMax == RoundHalfUp(duration)
      ensures durationText == ClockText(FormatTime(seekMax))
      ensures durationDatetime == FormatTime(seekMax).minutes + "m " + FormatTime(seekMax).seconds + "s"
    {
      var videoDuration := RoundHalfUp(duration);
      seekMax := videoDuration;
      progressMax := videoDuration;
      var time := FormatTime(videoDuration);
      durationText := ClockText(time);
      durationDatetime := time.minutes + "m " + time.seconds + "s";
    }

    /** updateProgress, run on `timeupdate`: the seek slider and the progress
        bar both move to the whole seconds played. */
    method UpdateProgress()
      modifies this`seekValue, this`progressValue
      ensures seekValue == progressValue == currentTime.Floor
    {
      seekValue := currentTime.Floor;
      progressValue := currentTime.Floor;
    }

    /** updateTimeElapsed, run on `timeupdate`: the elapsed label shows the
        rounded current time. Its `datetime` attribute reads a misspelt
        property, so the seconds there are always "undefined". */
    method UpdateTimeElapsed()
      modifies this`elapsedText, this`elapsedDatetime
      ensures elapsedText == ClockText(FormatTime(RoundHalfUp(currentTime)))
      ensures elapsedDatetime == FormatTime(RoundHalfUp(currentTime)).minutes + "m undefineds"
    {
      var time := FormatTime(RoundHalfUp(currentTime));
      elapsedText := ClockText(time);
      elapsedDatetime := time.minutes + "m " + "undefined" + "s";
    }

    /** updateSeekTooltip, on `mousemove` over the seek slider: the position
        under the pointer becomes the stored seek target, and the tooltip
        shows it as "mm:ss". */
    method UpdateSeekTooltip(offsetX: real, clientWidth: real)
      requires clientWidth > 0.0
      modifies this`dataSeek, this`tooltipText
      ensures dataSeek == Some(TooltipTarget(offsetX, clientWidth, seekMax))
      ensures 0.0 <= offsetX <= clientWidth && 0 <= seekMax ==> 0 <= dataSeek.value <= seekMax
      ensures tooltipText == ClockText(FormatTime(dataSeek.value))
    {
      var skipTo := TooltipTarget(offsetX, clientWidth, seekMax);
      dataSeek := Some(skipTo);
      var t := FormatTime(skipTo);
      tooltipText := ClockText(t);
    }

    /** skipAhead, on `input` from the seek slider: the media element, the
        progress bar and the slider all move to the skip target. The target
        itself is left as it was, so a second call changes nothing. */
    method SkipAhead()
      modifies this`currentTime, this`progressValue, this`seekValue
      ensures currentTime == old(SkipTarget()) as real
      ensures progressValue == seekValue == old(SkipTarget())
      ensures SkipTarget() == old(SkipTarget())
    {
      var skipTo := SkipTarget();
      currentTime := skipTo as real;
      progressValue := skipTo;
      seekValue := skipTo;
    }

    /** updateVolume, on `input` from the volume slider: the media element is
        unmuted and takes the slider's volume, whatever it was before. */
    method UpdateVolume()
      requires Valid()
      modifies this`muted, this`volume
      ensures Valid() && !muted && volume == volumeSlider
    {
      if muted {
        muted := false;
      }
      volume := volumeSlider;
    }

    /** updateVolumeIcon, on `volumechange`: every volume icon is hidden, then
        the one for the current tier is shown and the label set to match. */
    method UpdateVolumeIcon()
      requires Valid()
      modifies volumeIconHidden, this`volumeTitle
      ensures Valid() && VolumeButtonMatches()
      ensures ExactlyOneShown(volumeIconHidden[..])
      ensures !volumeIconHidden[IconIndex(MuteTier)] <==> muted || volume == 0.0
      ensures volumeTitle == UnmuteLabel <==> muted || volume == 0.0
    {
      for i := 0 to volumeIconHidden.Length
        invariant forall j :: 0 <= j < i ==> volumeIconHidden[j]
      {
        volumeIconHidden[i] := true;
      }
      volumeTitle := MuteLabel;
      if muted || volume == 0.0 {
        volumeIconHidden[IconIndex(MuteTier)] := false;
        volumeTitle := UnmuteLabel;
      } else if 0.0 < volume && volume <= 0.5 {
        volumeIconHidden[IconIndex(LowTier)] := false;
      } else {
        volumeIconHidden[IconIndex(HighTier)] := false;
      }
      assert OnlyShown(volumeIconHidden[..], IconIndex(Tier(muted, volume)));
    }

    /** toggleMute: flips `muted`. Muting caches the slider in `data-volume`
        and drives the slider to 0; unmuting puts the cached value back, or,
        when nothing was ever cached, `undefined`, which the slider turns into
        its default value. The media element's volume is never written. */
    method ToggleMute()
      requires Valid()
      modifies this`muted, this`cachedVolume, this`volumeSlider
      ensures Valid() && muted == !old(muted)
      ensures muted ==> cachedVolume == Some(old(volumeSlider)) && volumeSlider == 0.0
      ensures !muted ==> cachedVolume == old(cachedVolume)
      ensures !muted ==> volumeSlider == RestoredVolume(old(cachedVolume))
    {
      muted := !muted;
      if muted {
        cachedVolume := Some(volumeSlider);
        volumeSlider := 0.0;
      } else {
        volumeSlider := RestoredVolume(cachedVolume);
      }
    }

    /** hideControls, on pointer leave: hides the controls unless paused. */
    method HideControls()
      modifies this`controlsHidden
      ensures paused ==> controlsHidden == old(controlsHidden)
      ensures !paused ==> controlsHidden
    {
      if paused {
        return;
      }
      controlsHidden := true;
    }

    /** showControls, on pointer enter: always shows the controls. */
    method ShowControls()
      modifies this`controlsHidden
      ensures !controlsHidden
    {
      controlsHidden := false;
    }

    /** keyboardShortcuts, on `keyup`. `k` toggles playback, then shows the
        controls if that paused the video and otherwise schedules a delayed
        hide; `m` toggles mute; `f` and `p` go to the fullscreen and
        picture-in-picture toggles, which change nothing modelled here; any
        other key does nothing. */
    method KeyboardShortcuts(key: string) returns (s: Shortcut)
      requires Valid()
      modifies this`paused, this`ended, this`currentTime, this`controlsHidden,
               this`pendingHides, this`muted, this`cachedVolume, this`volumeSlider
      ensures Valid() && s == ShortcutFor(key)
      ensures s == PlayPauseKey ==>
        (paused <==> !(old(paused) || old(ended))) && !ended &&
        currentTime == (if old(ended) then 0.0 else old(currentTime)) &&
        muted == old(muted) && cachedVolume == old(cachedVolume) &&
        volumeSlider == old(volumeSlider) &&
        (paused ==> !controlsHidden && pendingHides == old(pendingHides)) &&
        (!paused ==> controlsHidden == old(controlsHidden) && pendingHides == old(pendingHides) + 1)
      ensures s == MuteKey ==>
        muted == !old(muted) &&
        (muted ==> cachedVolume == Some(old(volumeSlider)) && volumeSlider == 0.0) &&
        (!muted ==> cachedVolume == old(cachedVolume)) &&
        (!muted ==> volumeSlider == RestoredVolume(old(cachedVolume))) &&
        paused == old(paused) && ended == old(ended) && currentTime == old(currentTime) &&
        controlsHidden == old(controlsHidden) && pendingHides == old(pendingHides)
      ensures s in {FullscreenKey, PipKey, NoShortcut} ==> unchanged(this)
    {
      s := ShortcutFor(key);
      match s
      case PlayPauseKey =>
        var _ := TogglePlay();
        if paused {
          ShowControls();
        } else {
          pendingHides := pendingHides + 1;
        }
      case MuteKey =>
        ToggleMute();
      case FullscreenKey =>
      case PipKey =>
      case NoShortcut =>
    }

    /** A delayed hide scheduled by the `k` shortcut fires 2000 ms later and
        runs hideControls, whatever happened in between. */
    method HideTimerFires()
      requires pendingHides > 0
      modifies this`pendingHides, this`controlsHidden
      ensures pendingHides == old(pendingHides) - 1
      ensures paused ==> controlsHidden == old(controlsHidden)
      ensures !paused ==> controlsHidden
    {
      pendingHides := pendingHides - 1;
      HideControls();
    }
  }
}
