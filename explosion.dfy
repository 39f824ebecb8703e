/** src/entities/explosion.py: a visual effect whose only logic is a time
    accumulator with a one-way `finished` flag. The game keeps explosions in
    a list and updates each object in place. */
module Explosions {
  class Explosion {
    const x: real
    const y: real
    const maxRadius: real
    const duration: real
    var time: real
    var finished: bool

    /** `Explosion.__init__`: not started, not finished. */
    constructor(x: real, y: real, maxRadius: real, duration: real)
      ensures this.x == x && this.y == y && this.maxRadius == maxRadius && this.duration == duration
      ensures time == 0.0 && !finished
    {
      this.x := x;
      this.y := y;
      this.maxRadius := maxRadius;
      this.duration := duration;
      time := 0.0;
      finished := false;
    }

    /** `Explosion.update`: time accumulates; the flag is raised once the
      accumulated time reaches the duration and is never lowered. */
    method Update(dt: real)
      modifies this
      ensures time == old(time) + dt
      ensures finished == (old(finished) || time >= duration)
    {
      time := time + dt;
      if time >= duration {
        finished := true;
      }
    }
  }

  /** The flag after a series of updates from a given state, on values: the
      accumulated time is the starting time plus the sum of the steps. */
  function FinishedAfter(time: real, finished: bool, duration: real, steps: seq<real>): (r: (real, bool))
    decreases |steps|
  {
    if |steps| == 0 then (time, finished)
    else
      var (t, f) := FinishedAfter(time, finished, duration, steps[..|steps| - 1]);
      var t' := t + steps[|steps| - 1];
      (t', f || t' >= duration)
  }

  function Total(steps: seq<real>): real
    decreases |steps|
  {
    if |steps| == 0 then 0.0 else Total(steps[..|steps| - 1]) + steps[|steps| - 1]
  }

  /** From a fresh explosion and non-negative steps, the time is the sum of
      the steps and the flag is up exactly when that sum has reached the
      duration: it goes up at the first update where it does and stays up. */
  lemma {:induction false} FinishedAfterSpec(duration: real, steps: seq<real>)
    requires forall i :: 0 <= i < |steps| ==> steps[i] >= 0.0
    ensures FinishedAfter(0.0, false, duration, steps).0 == Total(steps)
    ensures FinishedAfter(0.0, false, duration, steps).1 <==> |steps| > 0 && Total(steps) >= duration
    decreases |steps|
  {
    if |steps| > 0 {
      var n := |steps| - 1;
      FinishedAfterSpec(duration, steps[..n]);
      assert forall i :: 0 <= i < n ==> steps[..n][i] >= 0.0;
    }
  }
}
