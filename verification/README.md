# Custom HTML5 video controls, modelled in Dafny

`index.js` replaces a browser's built-in video controls with its own control
bar: a play button, a seek slider over a progress bar, a volume button and
slider, elapsed-time and duration labels, an overlay that hides while the
video plays, and keyboard shortcuts. Each piece is an event handler that runs
to completion and updates a few properties of the page's elements.

This project models that logic:

- `time_format.dfy` (module `TimeFormat`): `formatTime`, which turns whole
  seconds into zero-padded minute and second strings by going through the ISO
  8601 string of a `Date`. The model takes the same route: the "HH:mm:ss" time
  of day of an instant, then cut out by position. The lemmas then state the
  result in plain arithmetic: minutes `(t div 60) mod 60` and seconds
  `t mod 60`, each two digits, with the hours dropped. Reading the clock back
  gives `t mod 3600`.
- `player.dfy` (module `VideoPlayer`): the class `Player`. Its fields copy the
  DOM properties the handlers read and write:
  - the media element: `paused`, `ended`, `muted`, `volume`, `currentTime`, `duration`;
  - the volume slider and its `data-volume` cache (`cachedVolume`, an option);
  - the seek slider, its `max`, its `data-seek` target (`dataSeek`, an option) and tooltip text;
  - the progress bar's value and max;
  - the labels;
  - the icons' `hidden` classes, as arrays updated in place by the same loops as the source's `forEach`;
  - the overlay's `hide` class.

  Each handler is a method that changes only the fields it writes (field-level
  `modifies` clauses). Pure helpers (`Math.round`, the volume-icon thresholds,
  the tooltip's seek target, the key dispatch) are functions with contracts.
- `scenarios.dfy` (module `PlayerScenarios`): handlers run in the order the
  page's listeners run them. Examples: a click on the play button followed by
  the `play`/`pause` event, two mute toggles, two seek commits, and a seek
  after hovering.

Quirks of the source that the model reproduces:

- Hours are dropped by `formatTime`: 3725 s shows "02:05", like 125 s.
- Once `data-seek` has been set, `skipAhead` always uses it. The stored number
  is a non-empty string, so it is truthy, "0" included. A slider moved by other
  means afterwards still seeks to the last hovered position.
- Unmuting when `data-volume` was never set assigns `undefined` to the volume
  slider. A range input replaces a non-numeric value by its default value, the
  midpoint of its range (`VolumeRangeDefault`, 0.5 for a 0 to 1 slider).
- `updateTimeElapsed` reads `time.seconsds`, so the elapsed label's `datetime`
  attribute always ends in "m undefineds".
- The unmute label is "unmute (m)" with a lower-case u; the others are
  capitalised.
- The `k` shortcut schedules a delayed hide on every resume and never cancels
  one. Pending hides are counted, and each fires `hideControls` on its own.

Other behaviour of the code that the model follows:

- `Math.round(62.5)` is 63, so for a pointer halfway along a 125-second track
  the stored target is 63 and the tooltip reads "01:03".
- For durations of an hour or more, the minutes shown are `(t div 60) mod 60`
  and the seconds `t mod 60`; the hours do not appear anywhere.
- `togglePlay`'s effect on `paused` is immediate. The `k` shortcut reads
  `video.paused` right after calling `togglePlay` (index.js:246), and a media
  element's `play()` and `pause()` update `paused` before they return. This is
  modelled by `MediaPlay`/`MediaPause`. A call to `play()` on a finished video
  also seeks back to the start. The `play`/`pause` events, and the
  `updatePlayButton` call they trigger, come after the handler.

## Model

| member | source | states |
|---|---|---|
| `TimeFormat.Pad2` | index.js:63 | a number below 100 becomes two decimal digits that read back as that number |
| `TimeFormat.IsoTimeOfDay` | index.js:63 | `toISOString().substr(11, 8)` is "HH:mm:ss": eight characters, colons at 2 and 5, hours below 24, minutes and seconds below 60 |
| `TimeFormat.FormatTime` | index.js:62-69 | both fields are two digits, each denoting a number below 60 |
| `TimeFormat.ClockText` | index.js:76 | the label is five characters, the minutes, a colon, then the seconds |
| `TimeFormat.FormatTimeFields` | index.js:62-69 | minutes are the two-digit `(t div 60) mod 60`, seconds the two-digit `t mod 60` |
| `TimeFormat.FormatTimeDropsHours` | index.js:63-67 | `formatTime(t) = formatTime(t mod 3600)`: whole hours never show |
| `TimeFormat.FormatTimeReadsBack` | index.js:62-69 | reading the minutes and seconds back gives `t mod 3600` |
| `TimeFormat.FormatTimeInjectiveWithinHour` | index.js:62-69 | below one hour, different times show different clocks |
| `TimeFormat.FormatTimeExamples` | index.js:62-69 | 125 s shows "02", "05", and its label is "02:05" |
| `TimeFormat.FormatTimeExampleOverAnHour` | index.js:62-69 | 3725 s, an hour more than 125 s, also shows "02", "05" |
| `VideoPlayer.RoundHalfUp` | index.js:72 | `Math.round` gives the integer within half of its argument, halves going up |
| `VideoPlayer.Tier` | index.js:125-131 | mute icon iff muted or volume 0; low icon iff unmuted and 0 < volume ≤ 0.5; high icon otherwise |
| `VideoPlayer.Flipped` | index.js:49 | toggling every `hidden` class changes every icon and keeps the count |
| `VideoPlayer.FlipSwapsShownIcon` | index.js:49 | with two icons and one shown, toggling both shows the other one alone |
| `VideoPlayer.FlipKeepsExactlyOne` | index.js:49 | with two icons, "exactly one shown" holds after the toggle iff it held before |
| `VideoPlayer.TooltipTarget` | index.js:94 | the target is the whole second nearest the pointer's fraction of the track times its max (halves up), and a pointer within the track targets a second between 0 and the max |
| `VideoPlayer.HalfwayAlongTrack` | index.js:94-97 | halfway along a 125 s track the target is 63 and the tooltip reads "01:03" |
| `VideoPlayer.ShortcutFor` | index.js:241-264 | `k`, `m`, `f`, `p` select play/pause, mute, fullscreen, picture-in-picture; any other key selects nothing |
| `VideoPlayer.Player.constructor` | index.js:1-23 | the controls start shown and agreeing with the given media state, with no cached volume and no seek target |
| `VideoPlayer.Player.MediaPlay` | index.js:38 | `play()` leaves the video unpaused and not ended, seeking a finished video back to 0 |
| `VideoPlayer.Player.MediaPause` | index.js:40 | `pause()` leaves the video paused |
| `VideoPlayer.Player.TogglePlay` | index.js:36-42 | requests play exactly when paused or ended, pause otherwise; afterwards paused iff it paused |
| `VideoPlayer.Player.UpdatePlayButton` | index.js:48-57 | every playback icon flips, "exactly one shown" is kept, and the label is "Play (k)" iff paused, else "Pause (k)" |
| `VideoPlayer.Player.InitializeVideo` | index.js:71-78 | seek max = progress max = rounded duration, shown as "mm:ss" with a matching `datetime` |
| `VideoPlayer.Player.UpdateProgress` | index.js:82-85 | seek value = progress value = whole seconds played |
| `VideoPlayer.Player.UpdateTimeElapsed` | index.js:87-91 | the label shows the rounded current time; the `datetime` attribute ends in "m undefineds" |
| `VideoPlayer.Player.UpdateSeekTooltip` | index.js:93-97 | the stored target is the position under the pointer, within the track's range, and the tooltip shows it |
| `VideoPlayer.Player.SkipTarget` | index.js:104 | the stored `data-seek` target whenever one has been set, whatever the slider says, otherwise the slider's value |
| `VideoPlayer.Player.SkipAhead` | index.js:103-108 | current time, progress value and seek value all become the target (stored target if set, else slider), and the target is unchanged, so a repeat is a no-op |
| `VideoPlayer.Player.UpdateVolume` | index.js:110-116 | afterwards unmuted with volume equal to the slider, whatever the state before |
| `VideoPlayer.Player.UpdateVolumeIcon` | index.js:118-133 | exactly one volume icon is shown, the one for the volume tier, and the label is "unmute (m)" iff muted or volume 0, else "Mute (m)" |
| `VideoPlayer.RestoredVolume` | index.js:142 | the cached value when there is one, otherwise (`undefined`) the range default 0.5; always a slider position from 0 to 1 |
| `VideoPlayer.Player.ToggleMute` | index.js:135-144 | flips muted; muting caches the slider and zeroes it; unmuting restores the cache, or the slider default when none; the media volume is untouched |
| `VideoPlayer.Player.HideControls` | index.js:224-230 | nothing changes while paused; otherwise the controls are hidden |
| `VideoPlayer.Player.ShowControls` | index.js:232-234 | the controls are shown, whatever the state |
| `VideoPlayer.Player.KeyboardShortcuts` | index.js:241-264 | dispatches by key: `k` toggles playback and then shows the controls or schedules a hide, `m` toggles mute, and every other key changes nothing |
| `VideoPlayer.Player.HideTimerFires` | index.js:249-251 | a scheduled hide runs `hideControls` and is used up |
| `PlayerScenarios.ClickPlayButton` | index.js:36-60 | a click followed by the `play`/`pause` event keeps the play button agreeing with the paused state |
| `PlayerScenarios.MuteTwice` | index.js:135-144 | two mute toggles from unmuted give back the slider value and leave the volume alone |
| `PlayerScenarios.ClickVolumeButton` | index.js:118-144 | toggling mute and then updating the icon shows the mute icon and "unmute (m)" whenever muted |
| `PlayerScenarios.DragVolumeSlider` | index.js:110-133 | after dragging to v, with `volumechange` firing only on a change: the button keeps agreeing, the video is unmuted at volume v, and the mute icon is shown iff v = 0 |
| `PlayerScenarios.SeekTwice` | index.js:103-108 | committing a seek twice lands on the same target as once |
| `PlayerScenarios.SeekAfterHover` | index.js:93-108 | after a hover, a seek goes to the hovered position whatever the slider's new value |
| `PlayerScenarios.LoadAndHoverHalfway` | index.js:71-101 | a 125 s video gets max 125 and label "02:05"; halfway hover targets 63, shown "01:03" |
| `PlayerScenarios.HoverLeaveWhilePaused` | index.js:224-239 | leaving the video while paused never hides the controls |
| `PlayerScenarios.RapidPlayKey` | index.js:241-253 | three `k` presses from paused leave two hides pending; the first one hides the controls while playing |

## Left out

- Element lookup and listener registration (index.js:1-27, 44-46, 59-60, 80, 186-199, 236-239, 266) and the `videoWorks` check (index.js:25, 31-34). They are wiring with no behaviour of their own. The scenarios call handlers in the order the listeners would.
- `animatePlayback` (index.js:147-162). It only starts a visual animation.
- `toggleFullscreen` and `updateFullscreenButton` (index.js:164-184). They branch over the browser's fullscreen APIs, which are not part of this model, and `updateFullscreenButton` is never wired up. The `f` shortcut is dispatched and changes nothing modelled.
- `togglePip` and the `DOMContentLoaded` check (index.js:201-222). These are asynchronous calls into the browser's picture-in-picture API, whose failures are only logged. The `p` shortcut is dispatched and changes nothing modelled.
- The 2000 ms delay of the hide that the `k` shortcut schedules. Time is not modelled: a scheduled hide is a pending count, and `HideTimerFires` is the environment's choice of when one fires.
- The tooltip's pixel position (index.js:98-99).
- Floating point. Volumes, times and pointer offsets are reals, and no IEEE rounding is reproduced.
- The page's markup is not part of this model. The volume slider is taken to span 0 to 1, the only span `video.volume` accepts. The seek slider is taken to step by whole seconds. The constructor's initial labels and track values stand in for the markup's.
- `FormatTime` models `toISOString` for years 0000 to 9999 only. Outside them the source's ISO string has a six-digit signed year, which shifts the cut, and beyond `Date`'s range it throws. Neither case is modelled.
- `InitializeVideo` assumes a finite duration. For a live stream (infinite duration) `formatTime` throws in the source, and that is not modelled.
- `UpdateSeekTooltip` assumes the seek slider's `max` attribute holds an integer, as it does after `initializeVideo`. Before that, a missing attribute parses to NaN, and that path is not modelled. It also requires a positive track width, as the element under the pointer has.
- `SkipAhead` does not model the range input's clamping of the value to its min, max and step. It also does not model the media element's clamping of `currentTime` to the media's duration.
- `TogglePlay` does not model a `play()` the browser refuses (an autoplay policy, or media it cannot play). Such a call rejects before `paused` is cleared, so `paused` stays true and the `k` shortcut takes the `showControls()` branch (index.js:246-247). The model's `MediaPlay` always clears `paused`, so `KeyboardShortcuts` schedules a hide instead.
