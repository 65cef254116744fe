/** The hardware abstraction the controller drives: the PCA9685 chip on its I2C bus, and the clock.
    Everything the controller makes happen is appended to a ghost log of events. A duty write or a
    deinit may fail (a bus error, a channel the chip does not have); which calls fail is not modelled,
    so each such call may fail or succeed. A sleep fails when its duration is negative. A
    failed call leaves no event in the log. */
module Hardware {
  import opened Motion

  class Hal {
    /** Every successful write, every sleep and every successful release, in order. */
    ghost var trace: seq<Event>

    constructor ()
      ensures trace == []
    {
      trace := [];
    }

    /** `pca.channels[ch].duty_cycle = duty`. The chip only sees `ch` and `duty`; the commanded
        angle is recorded beside them for the model's sake. */
    method SetDuty(ch: int, duty: int, ghost angle: real) returns (ok: bool)
      modifies this
      ensures trace == old(trace) + (if ok then [Write(ch, angle, duty)] else [])
    {
      ok :| true;
      if ok {
        trace := trace + [Write(ch, angle, duty)];
      }
    }

    /** `time.sleep(seconds)`: a blocking wait with no effect except its place in the log. A negative
        duration is refused (`ValueError`) and nothing happens. A duration too large for the clock
        is not refused here. */
    method Sleep(seconds: real) returns (ok: bool)
      modifies this
      ensures ok <==> seconds >= 0.0
      ensures trace == old(trace) + (if ok then [Event.Sleep(seconds)] else [])
    {
      ok := seconds >= 0.0;
      if ok {
        trace := trace + [Event.Sleep(seconds)];
      }
    }

    /** `pca.deinit()`, which may fail. */
    method Deinit() returns (ok: bool)
      modifies this
      ensures trace == old(trace) + (if ok then [Release] else [])
    {
      ok :| true;
      if ok {
        trace := trace + [Release];
      }
    }
  }
}
