/**
 * The volume fade of the player. A fade from `from` to `to` over `duration`
 * milliseconds first sets the volume to `from`, then on every animation
 * frame computes the progress t = min(elapsed / duration, 1), sets the
 * volume to from + (to - from) * t, and finishes on the first frame where
 * t is 1. Volumes are ideal reals, not IEEE doubles.
 */
module Fade {

  /** Fraction of the fade done after `elapsed` milliseconds; only capped above. */
  function Progress(elapsed: real, duration: real): (t: real)
    requires duration > 0.0
    ensures t <= 1.0
    ensures t == 1.0 <==> elapsed >= duration
    ensures t < 1.0 ==> t * duration == elapsed
    ensures elapsed >= 0.0 ==> t >= 0.0
  {
    var ratio := elapsed / duration;
    if ratio <= 1.0 then ratio else 1.0
  }

  /**
   * The volume the step computes on a frame `elapsed` milliseconds after the
   * fade began: the straight line from `from` to `to` until the duration,
   * and `to` from then on.
   */
  function FadeAt(from: real, to: real, duration: real, elapsed: real): (v: real)
    requires duration > 0.0
    ensures elapsed < duration ==> (v - from) * duration == (to - from) * elapsed
    ensures elapsed >= duration ==> v == to
  {
    var t := Progress(elapsed, duration);
    assert elapsed < duration ==> (to - from) * t * duration == (to - from) * elapsed;
    from + (to - from) * t
  }

  /** The media element's volume setter accepts exactly the values in [0, 1] and throws on any other. */
  predicate Settable(v: real) {
    0.0 <= v <= 1.0
  }

  /** A frame at the very start leaves the starting volume. */
  lemma FadeStartsAtFrom(from: real, to: real, duration: real)
    requires duration > 0.0
    ensures FadeAt(from, to, duration, 0.0) == from
  {
  }

  /** Every frame of the fade lies between its two end volumes. */
  lemma FadeBetween(from: real, to: real, duration: real, elapsed: real)
    requires duration > 0.0 && elapsed >= 0.0
    ensures from <= to ==> from <= FadeAt(from, to, duration, elapsed) <= to
    ensures to <= from ==> to <= FadeAt(from, to, duration, elapsed) <= from
  {
  }

  /** Once the duration has elapsed the volume is the target. */
  lemma FadeEndsAtTo(from: real, to: real, duration: real, elapsed: real)
    requires duration > 0.0 && elapsed >= duration
    ensures FadeAt(from, to, duration, elapsed) == to
  {
  }

  /** Later frames are never further from the target than earlier ones. */
  lemma FadeMonotone(from: real, to: real, duration: real, e1: real, e2: real)
    requires duration > 0.0 && e1 <= e2
    ensures from <= to ==> FadeAt(from, to, duration, e1) <= FadeAt(from, to, duration, e2)
    ensures to <= from ==> FadeAt(from, to, duration, e2) <= FadeAt(from, to, duration, e1)
  {
    var t1, t2 := Progress(e1, duration), Progress(e2, duration);
    assert t1 <= t2 by {
      if t2 < 1.0 {
        assert t1 < 1.0;
        assert (t2 - t1) * duration == e2 - e1;
      }
    }
    if from <= to {
      assert (to - from) * t1 <= (to - from) * t2;
    } else {
      assert (to - from) * t2 <= (to - from) * t1;
    }
  }

  /**
   * The progress is capped at 1 but not at 0: for a frame time earlier
   * than the fade's start the formula leaves the range of its end volumes.
   * For a fade-in from 0 over 800 ms, 8 ms early, it gives -0.01, a value
   * the volume setter rejects.
   */
  lemma EarlyFrameOvershoots()
    ensures FadeAt(0.0, 1.0, 800.0, -8.0) == -0.01
    ensures !Settable(FadeAt(0.0, 1.0, 800.0, -8.0))
  {
  }

  /** How a run of the fade ends. */
  datatype FadeEnd =
    | Resolved         // a frame reached the duration and the promise resolved
    | FramesExhausted  // the frames given ran out while the fade was still going
    | Threw            // a volume write was rejected: no further frame is requested and the promise never resolves

  /**
   * The whole fade, given the times at which the animation frames arrive
   * (the frame clock is a parameter). `volumes` lists every value stored in
   * the volume, in order: the initial one, then one per frame. A write
   * outside [0, 1] throws: the initial one rejects the promise, a later one
   * ends the frame loop with the fade unresolved.
   */
  method RunFade(from: real, to: real, duration: real, start: real, frames: seq<real>)
    returns (volumes: seq<real>, end: FadeEnd)
    requires duration > 0.0
    ensures !Settable(from) ==> volumes == [] && end == Threw
    ensures Settable(from) ==> 1 <= |volumes| <= |frames| + 1 && volumes[0] == from
    ensures forall k :: 0 <= k < |volumes| ==> Settable(volumes[k])
    ensures forall k :: 0 <= k < |volumes| - 1 ==> volumes[k + 1] == FadeAt(from, to, duration, frames[k] - start)
    ensures forall k :: 0 <= k < |volumes| - 2 ==> frames[k] - start < duration
    ensures end == Resolved <==> |volumes| >= 2 && frames[|volumes| - 2] - start >= duration
    ensures end == Resolved ==> volumes[|volumes| - 1] == to
    ensures end == FramesExhausted ==> |volumes| == |frames| + 1
    ensures end == Threw && Settable(from) ==>
      |volumes| <= |frames| && !Settable(FadeAt(from, to, duration, frames[|volumes| - 1] - start))
    ensures (forall k :: 0 <= k < |frames| ==> frames[k] >= start) && Settable(from) && Settable(to) ==>
      end != Threw
    ensures (forall k :: 0 <= k < |frames| ==> frames[k] >= start) && from <= to ==>
      forall k :: 0 <= k < |volumes| ==> from <= volumes[k] <= to
    ensures (forall k :: 0 <= k < |frames| ==> frames[k] >= start) && to <= from ==>
      forall k :: 0 <= k < |volumes| ==> to <= volumes[k] <= from
  {
    if !Settable(from) {
      return [], Threw;
    }
    ghost var early := forall k :: 0 <= k < |frames| ==> frames[k] >= start;
    volumes := [from];
    end := FramesExhausted;
    var i := 0;
    while i < |frames| && end == FramesExhausted
      invariant 0 <= i <= |frames|
      invariant |volumes| == i + 1 || (end == Threw && i >= 1 && |volumes| == i)
      invariant volumes[0] == from
      invariant forall k :: 0 <= k < |volumes| ==> Settable(volumes[k])
      invariant forall k :: 0 <= k < |volumes| - 1 ==> volumes[k + 1] == FadeAt(from, to, duration, frames[k] - start)
      invariant forall k :: 0 <= k < i - 1 ==> frames[k] - start < duration
      invariant end == Resolved ==> i >= 1 && frames[i - 1] - start >= duration
      invariant end == FramesExhausted && i >= 1 ==> frames[i - 1] - start < duration
      invariant end == Threw ==> |volumes| == i && !Settable(FadeAt(from, to, duration, frames[i - 1] - start))
      invariant early && Settable(to) ==> end != Threw
      invariant early ==> forall k :: 0 <= k < |volumes| ==> Within(volumes[k], from, to)
    {
      var elapsed := frames[i] - start;
      var t := Progress(elapsed, duration);
      var v := FadeAt(from, to, duration, elapsed);
      if early {
        FadeBetween(from, to, duration, elapsed);
      }
      i := i + 1;
      if !Settable(v) {
        end := Threw;
      } else {
        volumes := volumes + [v];
        if !(t < 1.0) {
          end := Resolved;
        }
      }
    }
  }

  /** `v` lies between the two end volumes of a fade, whichever way it goes. */
  predicate Within(v: real, from: real, to: real) {
    (from <= to ==> from <= v <= to) && (to <= from ==> to <= v <= from)
  }

  /** A fade-in whose first frame arrives 8 ms before its start stops there, at volume 0, and never resolves. */
  method EarlyFrameScenario() returns (volumes: seq<real>, end: FadeEnd)
    ensures volumes == [0.0] && end == Threw
  {
    var frames := [92.0, 900.0];
    volumes, end := RunFade(0.0, 1.0, 800.0, 100.0, frames);
    EarlyFrameOvershoots();
    assert frames[0] - 100.0 == -8.0;
  }
}
