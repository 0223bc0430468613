/**
 * The playback state of the player as the two buttons change it: whether it
 * is playing and which track is selected. The play/stop button and the
 * shuffle button are the only ways to change it; the media work that goes
 * with each press is in module View.
 */
module Playback {
  import opened Tracks

  /** The two state variables of the view, set together by each click. */
  datatype Control = Control(playing: bool, track: Track)

  /** The state on mount: stopped, no track. */
  const Idle: Control := Control(false, NoTrack)

  /** The state invariant: playing exactly when a track is selected. */
  predicate Consistent(c: Control) {
    c.playing <==> c.track != NoTrack
  }

  /** The play/stop button: stop and clear the track, or start track 1. */
  function TogglePlayStop(c: Control): (n: Control)
    ensures c.playing ==> n == Idle
    ensures !c.playing ==> n.playing && n.track == 1
    ensures Consistent(n)
  {
    if c.playing then Control(false, NoTrack) else Control(true, 1)
  }

  /** The shuffle button: play the next track, whatever the previous state. */
  function Shuffle(c: Control): (n: Control)
    ensures n.playing && n.track != NoTrack && n.track != c.track
    ensures n.track == NextTrack(c.track)
    ensures Consistent(n)
  {
    Control(true, NextTrack(c.track))
  }

  /** The condition of the video-pause effect, `!track || !playing`. */
  predicate VideoPauseArmed(c: Control) {
    c.track == NoTrack || !c.playing
  }

  /** In a consistent state the delayed video pause is armed exactly when idle. */
  lemma ArmedExactlyWhenIdle(c: Control)
    requires Consistent(c)
    ensures VideoPauseArmed(c) <==> c == Idle
  {
  }

  datatype Press = PlayStop | ShuffleButton

  function Apply(c: Control, p: Press): Control {
    match p
    case PlayStop => TogglePlayStop(c)
    case ShuffleButton => Shuffle(c)
  }

  /** Every press changes the state, so the effect keyed on it runs after every press. */
  lemma PressChangesState(c: Control, p: Press)
    ensures Apply(c, p) != c
  {
  }

  /** The state after a sequence of presses, first press first. */
  function Run(c: Control, presses: seq<Press>): Control
    decreases |presses|
  {
    if presses == [] then c else Run(Apply(c, presses[0]), presses[1..])
  }

  /** Presses keep the invariant, and any press restores it. */
  lemma {:induction false} RunConsistent(c: Control, presses: seq<Press>)
    requires Consistent(c) || presses != []
    ensures Consistent(Run(c, presses))
    decreases |presses|
  {
    if presses != [] {
      RunConsistent(Apply(c, presses[0]), presses[1..]);
    }
  }

  /** The states reachable from mount: idle, or playing one of the three tracks. */
  lemma {:induction false} Reachable(presses: seq<Press>)
    ensures var c := Run(Idle, presses);
      Consistent(c) && (VideoPauseArmed(c) <==> c == Idle)
  {
    RunConsistent(Idle, presses);
    ArmedExactlyWhenIdle(Run(Idle, presses));
  }

  /** Play then stop returns to the mount state. */
  lemma ToggleTwiceFromIdle()
    ensures Run(Idle, [PlayStop, PlayStop]) == Idle
  {
  }

  /** Play always starts track 1, whichever track was selected before. */
  lemma PlayStartsTrackOne(c: Control)
    requires !c.playing
    ensures Run(c, [PlayStop]) == Control(true, 1)
  {
  }

  function Shuffles(k: nat): (s: seq<Press>)
    ensures |s| == k
  {
    seq(k, _ => ShuffleButton)
  }

  /** The track selected after `k` presses of shuffle, counting from `t`: the table in a cycle. */
  function CycleFrom(t: Track, k: nat): (r: Track) {
    if k == 0 then t
    else var m := ((if t == 3 then 0 else t) + k) % 3;
      if m == 0 then 3 else m
  }

  /** Repeated shuffles walk the table 1, 2, 3, 1, ... from wherever they start. */
  lemma {:induction false} ShufflesCycle(c: Control, k: nat)
    ensures Run(c, Shuffles(k)).track == CycleFrom(c.track, k)
    ensures k > 0 ==> Run(c, Shuffles(k)).playing
    decreases k
  {
    if k > 0 {
      var n := Shuffle(c);
      assert Shuffles(k)[0] == ShuffleButton;
      assert Shuffles(k)[1..] == Shuffles(k - 1);
      ShufflesCycle(n, k - 1);
      var b := if c.track == 3 then 0 else c.track;
      var b' := if n.track == 3 then 0 else n.track;
      assert b' == (b + 1) % 3;
      assert (b' + (k - 1)) % 3 == (b + k) % 3;
    }
  }

  /** From mount, the k-th shuffle selects track ((k - 1) mod 3) + 1. */
  lemma ShufflesFromIdle(k: nat)
    requires k > 0
    ensures Run(Idle, Shuffles(k)) == Control(true, (k - 1) % 3 + 1)
  {
    ShufflesCycle(Idle, k);
    var m := k % 3;
    assert (k - 1) % 3 + 1 == if m == 0 then 3 else m;
  }
}
