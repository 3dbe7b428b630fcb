/** The frame clock (src/core/Time.js). Each tick reads the current time,
    caps the frame delta at 50 ms, accumulates the elapsed time and calls
    the tick listeners in registration order. The clock reading is a
    parameter and the `requestAnimationFrame` rescheduling is not
    modelled. */
module Clock {
  import opened Common

  /** The cap on one frame's delta, in milliseconds. */
  const MAX_DELTA: real := 50.0

  class Time {
    /** `_listeners`, in registration order. */
    var listeners: seq<ListenerId>
    var elapsed: real
    var delta: real
    var previousTime: real

    /** The delta never exceeds the cap. */
    ghost predicate Valid()
      reads this
    {
      delta <= MAX_DELTA
    }

    /** `new Time()`: the clock is read at `start`, and the first tick,
        which runs inside the constructor, reads it again at `firstTick`. */
    constructor (start: real, firstTick: real)
      ensures Valid()
      ensures listeners == []
      ensures delta == Min(firstTick - start, MAX_DELTA)
      ensures elapsed == delta && previousTime == firstTick
    {
      listeners := [];
      elapsed := 0.0;
      delta := 16.0;
      previousTime := start;
      new;
      var calls := Tick(firstTick);
    }

    /** `_tick()` at clock reading `now`: the new delta is the time since
        the last tick capped at 50 ms, the elapsed time grows by exactly
        that delta, and every listener is called once, in order. */
    method Tick(now: real) returns (calls: seq<ListenerId>)
      modifies this`delta, this`previousTime, this`elapsed
      ensures Valid()
      ensures delta == Min(now - old(previousTime), MAX_DELTA)
      ensures now - old(previousTime) <= MAX_DELTA ==> delta == now - old(previousTime)
      ensures previousTime == now
      ensures elapsed == old(elapsed) + delta
      ensures elapsed <= old(elapsed) + MAX_DELTA
      ensures calls == listeners
    {
      delta := Min(now - previousTime, MAX_DELTA);
      previousTime := now;
      elapsed := elapsed + delta;
      calls := [];
      for i := 0 to |listeners|
        invariant calls == listeners[..i]
      {
        calls := calls + [listeners[i]];
      }
    }

    /** `on(event, fn)`: only the 'tick' event keeps listeners. */
    method On(event: string, fn: ListenerId)
      modifies this`listeners
      ensures event == "tick" ==> listeners == old(listeners) + [fn]
      ensures event != "tick" ==> listeners == old(listeners)
    {
      if event == "tick" {
        listeners := listeners + [fn];
      }
    }

    /** `deltaSeconds`: the delta in seconds, hence at most 0.05. */
    function DeltaSeconds(): (s: real)
      requires Valid()
      reads this
      ensures s * 1000.0 == delta
      ensures s <= 0.05
    {
      delta / 1000.0
    }
  }
}
