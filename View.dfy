/**
 * The player view as a stateful object: the two playback state variables,
 * the layout state, the hidden audio element and the background video
 * element, and the asynchronous work still outstanding (the frames of a
 * fade-in or fade-out, and the delayed video pause).
 *
 * Time is not modelled. A pending fade advances when the browser's frame
 * callback runs, which is a method here that takes the elapsed time of that
 * frame as a parameter. The delayed video pause fires when its own method
 * is called.
 */
module View {
  import opened Tracks
  import Layout
  import Fade
  import Playback

  /** The properties of the audio element the view sets. */
  datatype Audio = Audio(src: string, volume: real, currentTime: real, paused: bool)

  /** The properties of the video element the view sets. */
  datatype Video = Video(src: string, paused: bool)

  /** A media element before any source is given: volume 1, at the start, paused. */
  const NoAudio: Audio := Audio("", 1.0, 0.0, true)
  const NoVideo: Video := Video("", true)

  const FadeInDuration: real := 800.0
  const FadeOutDuration: real := 600.0

  class DefaultView {
    var playing: bool
    var track: Track
    var isMobile: bool
    var scale: real
    var audio: Audio
    var video: Video

    /** The one-second timer that pauses the video is armed. */
    var videoPausePending: bool
    /** The fade from 0 to 1 started with the last track is still running. */
    var fadeInPending: bool
    /** The fade to 0 started by the last stop is still running, and will pause and rewind when done. */
    var fadeOutPending: bool
    /** The volume that fade-out started from. */
    var fadeOutFrom: real

    function Control(): Playback.Control
      reads this
    {
      Playback.Control(playing, track)
    }

    ghost predicate Valid()
      reads this
    {
      && Playback.Consistent(Control())
      && (videoPausePending ==> Control() == Playback.Idle)
      && (playing ==> audio.src == Config(track).audio && video.src == Config(track).video && !video.paused)
      && 0.0 <= audio.volume <= 1.0
      && 0.0 <= fadeOutFrom <= 1.0
    }

    /**
     * Mounting the view in a browser. `window` only selects the initial
     * layout: when it is absent the layout initializers take their defaults.
     */
    constructor (window: Option<Layout.Viewport>)
      ensures Valid()
      ensures Control() == Playback.Idle
      ensures Layout.LayoutState(isMobile, scale) == Layout.Initial(window)
      ensures audio == NoAudio && video == NoVideo
      ensures videoPausePending && !fadeInPending && !fadeOutPending
    {
      playing, track := false, NoTrack;
      var l := Layout.Initial(window);
      isMobile, scale := l.isMobile, l.scale;
      audio, video := NoAudio, NoVideo;
      fadeInPending, fadeOutPending, fadeOutFrom := false, false, 0.0;
      // the effect on the track and playing state runs after the first render
      videoPausePending := true;
    }

    /**
     * Load a track into both elements and start them. The audio restarts at
     * position 0 with the volume at 0, and a fade to 1 over 800 ms begins.
     * A fade-out still running is left running.
     */
    method StartTrack(config: TrackConfig)
      modifies this`audio, this`video, this`fadeInPending
      ensures audio == Audio(config.audio, 0.0, 0.0, false)
      ensures video == Video(config.video, false)
      ensures fadeInPending
    {
      audio := audio.(src := config.audio);
      audio := audio.(volume := 0.0);
      audio := audio.(currentTime := 0.0);
      audio := audio.(paused := false);
      // the fade first sets the volume to its starting value, at once
      audio := audio.(volume := 0.0);
      fadeInPending := true;
      video := video.(src := config.video);
      video := video.(paused := false);
    }

    /**
     * The effect keyed on the track and playing state, run after each
     * change of it: its cleanup clears a timer still armed, and it arms a
     * new one when no track is selected or nothing plays.
     */
    method VideoPauseEffect()
      modifies this`videoPausePending
      ensures videoPausePending == Playback.VideoPauseArmed(Control())
    {
      videoPausePending := false;
      if track == NoTrack || !playing {
        videoPausePending := true;
      }
    }

    /**
     * The play/stop button. Playing: the state becomes idle at once and a
     * fade from the current volume to 0 over 600 ms begins; the audio is
     * paused and rewound only when it ends. Stopped: track 1 is started.
     */
    method TogglePlayStop()
      requires Valid()
      modifies this
      ensures Valid()
      ensures Control() == Playback.TogglePlayStop(old(Control()))
      ensures videoPausePending <==> Control() == Playback.Idle
      ensures old(playing) ==> audio == old(audio) && video == old(video) && fadeInPending == old(fadeInPending)
      ensures old(playing) ==> fadeOutPending && fadeOutFrom == old(audio.volume)
      ensures !old(playing) ==> audio == Audio(Config(1).audio, 0.0, 0.0, false) && video == Video(Config(1).video, false)
      ensures !old(playing) ==> fadeInPending && fadeOutPending == old(fadeOutPending) && fadeOutFrom == old(fadeOutFrom)
      ensures isMobile == old(isMobile) && scale == old(scale)
    {
      if playing {
        // the fade first sets the volume to its starting value, here its own
        fadeOutFrom := audio.volume;
        audio := audio.(volume := fadeOutFrom);
        fadeOutPending := true;
        playing := false;
        track := NoTrack;
      } else {
        var config := Config(1);
        StartTrack(config);
        playing := true;
        track := 1;
      }
      VideoPauseEffect();
    }

    /**
     * The shuffle button: start the next track at once, without fading
     * out the one playing, and a fade-out still running is left running.
     */
    method Shuffle()
      requires Valid()
      modifies this
      ensures Valid()
      ensures Control() == Playback.Shuffle(old(Control()))
      ensures !videoPausePending
      ensures audio == Audio(Config(track).audio, 0.0, 0.0, false) && video == Video(Config(track).video, false)
      ensures fadeInPending && fadeOutPending == old(fadeOutPending) && fadeOutFrom == old(fadeOutFrom)
      ensures isMobile == old(isMobile) && scale == old(scale)
    {
      var next := NextTrack(track);
      var config := Lookup(next).value;
      StartTrack(config);
      track := next;
      playing := true;
      VideoPauseEffect();
    }

    /** The one-second timer fires and pauses the video. */
    method FireVideoPause()
      requires Valid() && videoPausePending
      modifies this`video, this`videoPausePending
      ensures Valid()
      ensures video == old(video).(paused := true) && !videoPausePending
    {
      video := video.(paused := true);
      videoPausePending := false;
    }

    /** A frame of the fade-in, `elapsed` ms after it began; it ends on the first frame at or past 800 ms. */
    method FadeInFrame(elapsed: real)
      requires Valid() && fadeInPending && elapsed >= 0.0
      modifies this`audio, this`fadeInPending
      ensures Valid()
      ensures audio == old(audio).(volume := Fade.FadeAt(0.0, 1.0, FadeInDuration, elapsed))
      ensures fadeInPending <==> elapsed < FadeInDuration
    {
      var t := Fade.Progress(elapsed, FadeInDuration);
      Fade.FadeBetween(0.0, 1.0, FadeInDuration, elapsed);
      audio := audio.(volume := Fade.FadeAt(0.0, 1.0, FadeInDuration, elapsed));
      if !(t < 1.0) {
        fadeInPending := false;
      }
    }

    /**
     * A frame of the fade-out, `elapsed` ms after it began. On the first
     * frame at or past 600 ms the fade ends, and then the audio is paused
     * and rewound, whatever has been started since.
     */
    method FadeOutFrame(elapsed: real)
      requires Valid() && fadeOutPending && elapsed >= 0.0
      modifies this`audio, this`fadeOutPending
      ensures Valid()
      ensures elapsed < FadeOutDuration ==>
        audio == old(audio).(volume := Fade.FadeAt(fadeOutFrom, 0.0, FadeOutDuration, elapsed)) && fadeOutPending
      ensures elapsed >= FadeOutDuration ==>
        audio == old(audio).(volume := 0.0, currentTime := 0.0, paused := true) && !fadeOutPending
    {
      var t := Fade.Progress(elapsed, FadeOutDuration);
      Fade.FadeBetween(fadeOutFrom, 0.0, FadeOutDuration, elapsed);
      audio := audio.(volume := Fade.FadeAt(fadeOutFrom, 0.0, FadeOutDuration, elapsed));
      if !(t < 1.0) {
        fadeOutPending := false;
        audio := audio.(paused := true);
        audio := audio.(currentTime := 0.0);
      }
    }

    /** The resize handler: recompute the layout from the new viewport. */
    method Resize(v: Layout.Viewport)
      requires Valid()
      modifies this`isMobile, this`scale
      ensures Valid()
      ensures Layout.LayoutState(isMobile, scale) == Layout.Compute(v.width, v.height)
    {
      var vw := v.width;
      var mobile := vw < Layout.MobileBreakpoint;
      isMobile := mobile;
      scale := if mobile then vw as real / Layout.MobileFrameWidth
               else Layout.Min(vw as real / Layout.DesignWidth, v.height as real / Layout.DesignHeight);
    }
  }

  /**
   * Stopping and, within the 600 ms of the fade-out, pressing play again:
   * the state says track 1 is playing, but when the old fade-out ends it
   * pauses and rewinds the audio of the new track.
   */
  method StaleFadeOutScenario() returns (state: Playback.Control, audioPaused: bool, videoPaused: bool)
    ensures state == Playback.Control(true, 1)
    ensures audioPaused && !videoPaused
  {
    var v := new DefaultView(Some(Layout.Viewport(1512, 982)));
    v.TogglePlayStop();
    v.FadeInFrame(800.0);
    v.TogglePlayStop();
    v.TogglePlayStop();
    v.FadeOutFrame(600.0);
    state, audioPaused, videoPaused := v.Control(), v.audio.paused, v.video.paused;
  }

  /**
   * Stopping and pressing shuffle within a second: the cleanup of the
   * video-pause effect clears the timer, so the video keeps playing.
   */
  method QuickRestartKeepsVideoScenario() returns (state: Playback.Control, videoPaused: bool, timerArmed: bool)
    ensures state == Playback.Control(true, 1)
    ensures !videoPaused && !timerArmed
  {
    var v := new DefaultView(Some(Layout.Viewport(1512, 982)));
    v.Shuffle();
    v.Shuffle();
    v.TogglePlayStop();
    v.Shuffle();
    state, videoPaused, timerArmed := v.Control(), v.video.paused, v.videoPausePending;
  }
}
