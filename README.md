# Dream Vinyl player: a Dafny model of the default view

The default view of Dream Vinyl is an animated record player. It has two
buttons. Play/stop starts or stops the music. Shuffle moves to the next of
three configured tracks. Behind the buttons the view drives a hidden audio
element and a background video element. It fades the audio volume in and
out with a per-frame loop, and after a stop it pauses the video with a
one-second delay. It also scales its fixed 1512 x 982 design frame, or a
610-wide mobile layout below 768 pixels, to fit the browser window.

The model has five modules:

- `Tracks`: the static track table, the next-track rule, the tonearm lookup with its defaults, and the play/stop icon. All are pure functions.
- `Layout`: the `isMobile`/`scale` formula, used for the initial state and for every resize.
- `Fade`: the fade formula over ideal reals, and `RunFade`, the frame loop of the fade helper as a method over a given sequence of frame times.
- `Playback`: the `playing`/`track` pair as a value, the two button transitions as functions, and lemmas over every sequence of presses.
- `View`: the class `DefaultView`. Its fields are the state, the abstract audio and video records, and flags for the asynchronous work still outstanding:
  - `fadeInPending`: a fade-in has not finished;
  - `fadeOutPending`: a fade-out has not finished;
  - `videoPausePending`: the one-second video-pause timer is armed.

  Its methods are the two click handlers, `startTrack`, the video-pause effect, the frame callbacks of the two fades, the timer callback and the resize handler. Each button method is tied to its `Playback` function. Each keeps the class invariant `Valid()`, which says:
  - `playing` holds exactly when a track is set;
  - the pause timer is armed only in the idle state;
  - while playing, both elements hold the current track's sources and the video is not paused;
  - the audio volume stays within [0, 1];
  - the volume a running fade-out started from is within [0, 1].

A selected track of `null` is encoded as 0.

The fade progress is capped at 1 (`src/views/DefaultView.jsx:100`) but not
floored at 0. `Fade.EarlyFrameOvershoots` shows that for a frame time earlier
than the start the formula leaves [0, 1]. The audio element's volume setter
throws on such a value, so `Fade.RunFade` ends the fade there, unresolved.

The model includes one race as the code has it. A fade-out has no
cancellation. Suppose the user stops and then presses play or shuffle
within 600 ms. The old fade's completion then pauses and rewinds the new
track, while the state still says it is playing. `View.StaleFadeOutScenario`
walks through that sequence. The video-pause timer has no such race,
because the effect's cleanup clears it (`View.QuickRestartKeepsVideoScenario`).

## Model

| member | source | states |
|---|---|---|
| `Tracks.Config` | src/views/DefaultView.jsx:55-59 | each of the three table entries has an audio and a video source |
| `Tracks.Lookup` | src/views/DefaultView.jsx:117 | the table has an entry exactly for keys 1, 2 and 3; any other key, such as no track, finds nothing |
| `Tracks.NextTrack` | src/views/DefaultView.jsx:501-502 | the next track differs from the current one; it is 1 exactly when there is no track or the track is 3, otherwise the current track plus 1; the table always has an entry for it |
| `Tracks.NextTrackPeriod` | src/views/DefaultView.jsx:501 | three shuffles from a selected track return to it |
| `Tracks.NextTrackVisitsAll` | src/views/DefaultView.jsx:501 | three shuffles from no track visit all three entries |
| `Tracks.TonearmTop` | src/views/DefaultView.jsx:117-118 | the tonearm top is the table entry's value when a track is set, and 256.75 when none is |
| `Tracks.TonearmRotation` | src/views/DefaultView.jsx:117-119 | the tonearm rotation is the table entry's value when a track is set, and 0 when none is |
| `Tracks.RestIsTrackOne` | src/views/DefaultView.jsx:56 | with no track the tonearm stands exactly where track 1 puts it |
| `Tracks.TonearmMovesInward` | src/views/DefaultView.jsx:55-59 | a later track has a strictly larger top and a strictly smaller rotation |
| `Tracks.PlayStopIcon` | src/views/DefaultView.jsx:480 | the button shows "stop" exactly while playing and "play" exactly while not |
| `Layout.Compute` | src/views/DefaultView.jsx:159-163 | mobile exactly when the width is below 768; on mobile the 610-wide frame spans the width; on desktop the scale is the smaller of the width and height ratios to 1512 x 982 |
| `Layout.Initial` | src/views/DefaultView.jsx:149-156 | without a window the layout is desktop at scale 1; with one, the initial formula agrees with the resize formula |
| `Layout.DesktopFrameFits` | src/views/DefaultView.jsx:163 | on desktop the scaled design frame fits inside the viewport and fills it in width or in height |
| `Layout.ScalePositive` | src/views/DefaultView.jsx:152 | a viewport with positive width and height gets a positive scale |
| `Layout.ScaleMonotone` | src/views/DefaultView.jsx:161-163 | within one layout mode, a larger viewport never gets a smaller scale |
| `Layout.DesignFrameScenario` | src/views/DefaultView.jsx:161-163 | a 1512 x 982 viewport gives desktop at scale 1 |
| `Layout.MobileScenario` | src/views/DefaultView.jsx:161-163 | a 600 x 900 viewport gives mobile at scale 600/610 |
| `Layout.WideScenario` | src/views/DefaultView.jsx:161-163 | a 2000 x 1000 viewport gives desktop at scale 1000/982, limited by the height |
| `Fade.Progress` | src/views/DefaultView.jsx:100 | progress is at most 1; it is exactly 1 once the duration has elapsed; below 1 it is elapsed/duration; it is non-negative for non-negative elapsed time |
| `Fade.FadeAt` | src/views/DefaultView.jsx:100-101 | before the duration the sample lies on the straight line from `from` to `to`, (v - from) * duration == (to - from) * elapsed; from the duration on it is `to`. `FadeStartsAtFrom`, `FadeBetween`, `FadeEndsAtTo` and `FadeMonotone` state its other properties |
| `Fade.FadeStartsAtFrom` | src/views/DefaultView.jsx:97-101 | a frame at elapsed 0 writes the starting volume |
| `Fade.FadeBetween` | src/views/DefaultView.jsx:100-101 | for non-negative elapsed time every sample lies between the start and target volumes, in either direction |
| `Fade.FadeEndsAtTo` | src/views/DefaultView.jsx:100-103 | at or after the duration the sample is the target volume |
| `Fade.FadeMonotone` | src/views/DefaultView.jsx:100-101 | a later sample is never further from the target than an earlier one |
| `Fade.EarlyFrameOvershoots` | src/views/DefaultView.jsx:98-101 | progress is not floored at 0: for a 0 to 1 fade over 800 ms, a frame 8 ms before the start gives -0.01 by the formula, a value the volume setter rejects |
| `Fade.RunFade` | src/views/DefaultView.jsx:95-107 | every stored volume is in [0, 1]. An initial `from` outside it throws and nothing is stored. Otherwise the volume is first set to `from`, and each later frame stores the formula's sample for its elapsed time. The loop goes on only while progress is below 1. It resolves exactly on the first frame that reaches the duration, and then holds the target. A rejected sample ends it unresolved. With frames at or after the start and both ends in [0, 1] nothing throws, and every volume lies between `from` and `to`, in either direction |
| `Fade.EarlyFrameScenario` | src/views/DefaultView.jsx:97-105 | a fade-in whose first frame is 8 ms early stops at volume 0 and never resolves |
| `Playback.TogglePlayStop` | src/views/DefaultView.jsx:480-499 | from playing the state becomes (false, no track); from stopped it becomes (true, 1) whatever track was set |
| `Playback.Shuffle` | src/views/DefaultView.jsx:500-506 | the state becomes playing, with `NextTrack` of the old track, which differs from the old one |
| `Playback.VideoPauseArmed` | src/views/DefaultView.jsx:140 | the effect's condition: no track is selected or nothing plays; `Playback.ArmedExactlyWhenIdle` states that under the invariant it holds exactly in the idle state |
| `Playback.ArmedExactlyWhenIdle` | src/views/DefaultView.jsx:139-147 | under the invariant, the video-pause condition holds exactly in the idle state |
| `Playback.PressChangesState` | src/views/DefaultView.jsx:147 | every press changes (playing, track), so the effect keyed on them runs again after each press |
| `Playback.RunConsistent` | src/views/DefaultView.jsx:110-111 | any sequence of presses keeps `playing` iff a track is set, and one or more presses restore it from any state |
| `Playback.Reachable` | src/views/DefaultView.jsx:110-111 | every state reachable from mount satisfies the invariant, and has the video pause armed exactly when idle |
| `Playback.ToggleTwiceFromIdle` | src/views/DefaultView.jsx:480-499 | play then stop from mount returns to (false, no track) |
| `Playback.PlayStartsTrackOne` | src/views/DefaultView.jsx:493-497 | play from any stopped state selects track 1 |
| `Playback.ShufflesCycle` | src/views/DefaultView.jsx:501-505 | k shuffles from any state leave the player playing, with the track k steps further round the cycle 1, 2, 3 |
| `Playback.ShufflesFromIdle` | src/views/DefaultView.jsx:501-505 | from mount, the k-th shuffle plays track ((k - 1) mod 3) + 1 |
| `View.DefaultView.constructor` | src/views/DefaultView.jsx:110-156 | the view mounts idle, with the initial layout, empty paused media, no fades pending, and the video pause armed by the effect's first run |
| `View.DefaultView.StartTrack` | src/views/DefaultView.jsx:122-136 | the audio gets the track's source, volume 0, position 0 and is started, and a fade-in is pending; the video gets its source and is started; nothing else changes, so a running fade-out is left alone |
| `View.DefaultView.VideoPauseEffect` | src/views/DefaultView.jsx:139-147 | after the effect, the delayed video pause is armed exactly when there is no track or nothing plays |
| `View.DefaultView.TogglePlayStop` | src/views/DefaultView.jsx:480-499 | the state follows `Playback.TogglePlayStop`. Stopping leaves both media and any fade-in as they are, starts a fade-out from the current volume and arms the video pause. Starting loads track 1 as `StartTrack` does and leaves any fade-out running. The invariant is kept |
| `View.DefaultView.Shuffle` | src/views/DefaultView.jsx:500-506 | the state follows `Playback.Shuffle`; the new track is loaded and started without a fade-out of the old one; a running fade-out is left alone; the video pause is disarmed; the invariant is kept |
| `View.DefaultView.FireVideoPause` | src/views/DefaultView.jsx:143 | the timer pauses the video and is no longer armed; this happens only while idle, so the invariant is kept |
| `View.DefaultView.FadeInFrame` | src/views/DefaultView.jsx:99-104 | the frame writes `FadeAt(0, 1, 800, elapsed)` to the volume, which stays in [0, 1]; the fade-in is still pending exactly while elapsed is below 800 |
| `View.DefaultView.FadeOutFrame` | src/views/DefaultView.jsx:485-490 | before 600 ms the frame writes the fade-out sample; at or past 600 ms the volume is 0, the audio is paused and rewound to 0, and no fade-out is pending. This holds even if a track was started since |
| `View.DefaultView.Resize` | src/views/DefaultView.jsx:159-164 | after a resize the layout state equals `Layout.Compute` of the new viewport |
| `View.StaleFadeOutScenario` | src/views/DefaultView.jsx:485-497 | play, stop, then play again before the fade-out ends: when the old fade-out ends, the state is (true, 1) but the audio is paused, while the video plays |
| `View.QuickRestartKeepsVideoScenario` | src/views/DefaultView.jsx:139-147 | stop and shuffle within the second: the timer is cleared and the video is not paused |

## Left out

- `InlineSVG` (src/views/DefaultView.jsx:7-27): it is a network fetch plus DOM parsing and node import, all I/O.
- The JSX markup, styles, positions, blend modes, CSS transitions and animations, title layout and footer. They are rendering only. Of `PlayButton`, only the icon choice is modelled.
- src/views/TrackView.jsx is not part of this model. It is markup, a 100 ms one-shot timer and a constant name lookup, with opaque callbacks.
- Time is not modelled: `performance.now`, `requestAnimationFrame`, `setTimeout` and `clearTimeout`. In the class, frame times arrive as an `elapsed` parameter and the timer fires when `FireVideoPause` is called. `Fade.RunFade` takes the frame times as a sequence, so it also covers early frames.
- View.DefaultView.FadeInFrame and View.DefaultView.FadeOutFrame require a non-negative `elapsed`. An early frame makes the volume setter throw and ends that fade for good, and a fade-out that ends this way never pauses or rewinds. Only `Fade.RunFade` covers that case.
- The `play()` promises and their swallowed rejections (lines 129, 134) are foreign browser calls. `play` is modelled as clearing the paused flag. Playback that the browser blocks is not modelled.
- `View.DefaultView.TogglePlayStop`: the null checks on the media refs (lines 125, 132, 142, 483) are not modelled. They are false only before mount, and no handler or effect runs before mount.
- `View.DefaultView.FadeInFrame`: the class keeps one slot per fade direction. A fade-in started while an older one runs replaces it, and a stop followed by another stop within 600 ms restarts the single fade-out. The model therefore does not capture two loops of the same direction interleaving their writes on one frame. Both end on the same target, so the final volume and the pause are as in the source.
- The extra volume write at the start of each fade (line 97) is modelled as an assignment. Setting the audio source also resets the position in a real browser. The model writes the position to 0 explicitly, as the source does.
- Floating-point rounding of `scale` and of the volume is not modelled. Both are ideal reals.
- Registration and removal of the resize listener (lines 165-166) is event plumbing. Only the handler's computation is modelled.
- `fadingRef` (lines 112, 484, 488) is written but never read, so it is not modelled.
- The fade helper's `duration` must be positive. Its only callers pass 800 and 600.
