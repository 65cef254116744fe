/** The module-level state of the driver: the tunables, which the module keeps as globals and every
    controller operation reads at call time, and the single lazily built controller. */
module Lifecycle {
  import opened Settings
  import opened Motion
  import opened Hardware
  import opened Servo

  class Driver {
    /** The chip every controller of this driver is built on. */
    const hal: Hal
    /** The current values of the module's tunables. */
    var cfg: Config
    /** `_controller`: the live controller, or none. */
    var controller: PcaPress?

    /** The frequency is fixed and positive, and a live controller drives this driver's chip. */
    ghost predicate Valid()
      reads this
    {
      cfg.freqHz > 0 && (controller != null ==> controller.hal == hal)
    }

    /** Importing the module: the tunables take their configured values and no controller is live. */
    constructor (hal: Hal, cfg: Config)
      requires cfg.freqHz > 0
      ensures Valid() && this.hal == hal && this.cfg == cfg && controller == null
    {
      this.hal := hal;
      this.cfg := cfg;
      controller := null;
    }

    /** `_get`: the live controller, or a newly built one (which drives both channels to rest) when
        there is none. A failed construction leaves no controller. */
    method Get() returns (c: PcaPress?, ghost done: seq<Event>)
      requires Valid()
      modifies this, hal
      ensures Valid() && cfg == old(cfg) && c == controller
      ensures hal.trace == old(hal.trace) + done
      ensures old(controller) != null ==> c == old(controller) && done == []
      ensures old(controller) == null ==> Progress(RestTrace(cfg), done, c != null)
      ensures old(controller) == null && c != null ==> fresh(c) && c.angle == SeedAngles(cfg)
      ensures old(controller) == null ==> (c != null <==> RestTrace(cfg) <= done)
      ensures c != null ==> c.angle == Replay(old(if controller != null then controller.angle else map[]), done)
    {
      if controller == null {
        var built, ok;
        built, ok, done := PcaPress.Open(hal, cfg);
        if ok {
          controller := built;
        }
      } else {
        done := [];
      }
      c := controller;
    }

    /** `press_left()`: get the controller, then press the left servo with it. */
    method PressLeft() returns (r: Reply, ghost done: seq<Event>)
      requires Valid()
      modifies this, hal, controller
      ensures Valid() && cfg == old(cfg)
      ensures hal.trace == old(hal.trace) + done
      ensures var m := old(if controller != null then controller.angle else SeedAngles(cfg));
        var seed := if old(controller) == null then RestTrace(cfg) else [];
        Progress(seed + PressOnceTrace(cfg, m, cfg.leftCh, cfg.leftRest, cfg.leftPress), done, r.Ok?) &&
        (r.Ok? ==> r.text == "OK" && controller != null && controller.angle == m[cfg.leftCh := cfg.leftRest])
      ensures old(controller) != null ==> controller == old(controller)
      ensures old(controller) == null ==> controller == null || fresh(controller)
      ensures old(controller) == null ==> (controller != null <==> RestTrace(cfg) <= done)
      ensures controller != null ==> controller.angle == Replay(old(if controller != null then controller.angle else map[]), done)
    {
      ghost var m := if controller != null then controller.angle else SeedAngles(cfg);
      ghost var start := if controller != null then controller.angle else map[];
      ghost var log0 := hal.trace;
      var c, d0 := Get();
      if c == null {
        r, done := Raised, d0;
        ProgressAbort(RestTrace(cfg), PressOnceTrace(cfg, m, cfg.leftCh, cfg.leftRest, cfg.leftPress), d0);
        return;
      }
      ghost var d1;
      r, d1 := c.PressLeft(cfg);
      done := d0 + d1;
      AppendAssoc(log0, d0, d1);
      ReplayAppend(start, d0, d1);
      ProgressThen(d0, PressOnceTrace(cfg, m, cfg.leftCh, cfg.leftRest, cfg.leftPress), d1, r.Ok?);
      if r.Ok? {
        PressOnceTracks(cfg, m, cfg.leftCh, cfg.leftRest, cfg.leftPress);
      }
    }

    /** `press_right()`: get the controller, then press the right servo with it. */
    method PressRight() returns (r: Reply, ghost done: seq<Event>)
      requires Valid()
      modifies this, hal, controller
      ensures Valid() && cfg == old(cfg)
      ensures hal.trace == old(hal.trace) + done
      ensures var m := old(if controller != null then controller.angle else SeedAngles(cfg));
        var seed := if old(controller) == null then RestTrace(cfg) else [];
        Progress(seed + PressOnceTrace(cfg, m, cfg.rightCh, cfg.rightRest, cfg.rightPress), done, r.Ok?) &&
        (r.Ok? ==> r.text == "OK" && controller != null && controller.angle == m[cfg.rightCh := cfg.rightRest])
      ensures old(controller) != null ==> controller == old(controller)
      ensures old(controller) == null ==> controller == null || fresh(controller)
      ensures old(controller) == null ==> (controller != null <==> RestTrace(cfg) <= done)
      ensures controller != null ==> controller.angle == Replay(old(if controller != null then controller.angle else map[]), done)
    {
      ghost var m := if controller != null then controller.angle else SeedAngles(cfg);
      ghost var start := if controller != null then controller.angle else map[];
      ghost var log0 := hal.trace;
      var c, d0 := Get();
      if c == null {
        r, done := Raised, d0;
        ProgressAbort(RestTrace(cfg), PressOnceTrace(cfg, m, cfg.rightCh, cfg.rightRest, cfg.rightPress), d0);
        return;
      }
      ghost var d1;
      r, d1 := c.PressRight(cfg);
      done := d0 + d1;
      AppendAssoc(log0, d0, d1);
      ReplayAppend(start, d0, d1);
      ProgressThen(d0, PressOnceTrace(cfg, m, cfg.rightCh, cfg.rightRest, cfg.rightPress), d1, r.Ok?);
      if r.Ok? {
        PressOnceTracks(cfg, m, cfg.rightCh, cfg.rightRest, cfg.rightPress);
      }
    }

    /** `press_both()`: get the controller, then press both servos with it. */
    method PressBoth() returns (r: Reply, ghost done: seq<Event>)
      requires Valid()
      modifies this, hal, controller
      ensures Valid() && cfg == old(cfg)
      ensures hal.trace == old(hal.trace) + done
      ensures var m := old(if controller != null then controller.angle else SeedAngles(cfg));
        var seed := if old(controller) == null then RestTrace(cfg) else [];
        Progress(seed + PressBothTrace(cfg, m), done, r.Ok?) &&
        (r.Ok? ==>
           (r.text == "OK" && controller != null &&
            controller.angle == m[cfg.leftCh := cfg.leftRest][cfg.rightCh := cfg.rightRest]))
      ensures old(controller) != null ==> controller == old(controller)
      ensures old(controller) == null ==> controller == null || fresh(controller)
      ensures old(controller) == null ==> (controller != null <==> RestTrace(cfg) <= done)
      ensures controller != null ==> controller.angle == Replay(old(if controller != null then controller.angle else map[]), done)
    {
      ghost var m := if controller != null then controller.angle else SeedAngles(cfg);
      ghost var start := if controller != null then controller.angle else map[];
      ghost var log0 := hal.trace;
      var c, d0 := Get();
      if c == null {
        r, done := Raised, d0;
        ProgressAbort(RestTrace(cfg), PressBothTrace(cfg, m), d0);
        return;
      }
      ghost var d1;
      r, d1 := c.PressBoth(cfg);
      done := d0 + d1;
      AppendAssoc(log0, d0, d1);
      ReplayAppend(start, d0, d1);
      ProgressThen(d0, PressBothTrace(cfg, m), d1, r.Ok?);
      if r.Ok? {
        PressBothTracks(cfg, m);
      }
    }

    /** `close()`: close the live controller, if any, and forget it. Never fails. */
    method Close() returns (ghost done: seq<Event>)
      requires Valid()
      modifies this, hal, controller
      ensures Valid() && cfg == old(cfg) && controller == null
      ensures hal.trace == old(hal.trace) + done
      ensures old(controller) == null ==> done == []
      ensures old(controller) != null ==> IsCloseTrace(cfg, done)
    {
      if controller != null {
        done := controller.Close(cfg);
        controller := null;
      } else {
        done := [];
      }
    }

    /** `set_channels`: the new channels take effect first, then a live controller is closed (so its
        rest writes already go to the new channels) and forgotten. */
    method SetChannels(left: int, right: int) returns (ghost done: seq<Event>)
      requires Valid()
      modifies this, hal, controller
      ensures Valid() && cfg == old(cfg).(leftCh := left, rightCh := right) && controller == null
      ensures hal.trace == old(hal.trace) + done
      ensures old(controller) == null ==> done == []
      ensures old(controller) != null ==> IsCloseTrace(cfg, done)
    {
      cfg := cfg.(leftCh := left, rightCh := right);
      done := Close();
    }

    /** `set_angles`: the new rest and press angles take effect first, then a live controller is
        closed (driving the channels to the new rest angles) and forgotten. */
    method SetAngles(leftRest: real, leftPress: real, rightRest: real, rightPress: real) returns (ghost done: seq<Event>)
      requires Valid()
      modifies this, hal, controller
      ensures Valid() && controller == null
      ensures cfg == old(cfg).(leftRest := leftRest, leftPress := leftPress, rightRest := rightRest, rightPress := rightPress)
      ensures hal.trace == old(hal.trace) + done
      ensures old(controller) == null ==> done == []
      ensures old(controller) != null ==> IsCloseTrace(cfg, done)
    {
      cfg := cfg.(leftRest := leftRest, leftPress := leftPress, rightRest := rightRest, rightPress := rightPress);
      done := Close();
    }

    /** `set_pulse_range`: the new pulse range takes effect first, then a live controller is closed
        (its rest writes already use the new range) and forgotten. */
    method SetPulseRange(minUs: int, maxUs: int) returns (ghost done: seq<Event>)
      requires Valid()
      modifies this, hal, controller
      ensures Valid() && cfg == old(cfg).(minUs := minUs, maxUs := maxUs) && controller == null
      ensures hal.trace == old(hal.trace) + done
      ensures old(controller) == null ==> done == []
      ensures old(controller) != null ==> IsCloseTrace(cfg, done)
    {
      cfg := cfg.(minUs := minUs, maxUs := maxUs);
      done := Close();
    }
  }
}
