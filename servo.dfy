/** `_PCAPress`: the controller object that owns the chip and tracks the last commanded angle of each
    channel. Every method states the hardware events it produced (`done`, appended to the log) as a
    partial run of the trace the motion specification prescribes, and the tracked angles as the
    replay of those events: a failing write stops the operation before anything after it. */
module Servo {
  import opened Settings
  import opened Conversion
  import opened Motion
  import opened Hardware

  /** What a press operation returns: "OK", or the exception the source raises (a failed hardware call
      or a refused sleep). */
  datatype Reply = Ok(text: string) | Raised

  class PcaPress {
    /** The chip this controller drives. */
    const hal: Hal
    /** `self._angle`: the last angle successfully written to each channel, unclamped. */
    var angle: map<int, real>

    /** The bus and chip set-up and the empty angle table, before the rest positions are written. */
    constructor (hal: Hal)
      ensures this.hal == hal && angle == map[]
    {
      this.hal := hal;
      angle := map[];
    }

    /** `_PCAPress()`: construct, then drive the left channel to rest and then the right one. */
    static method Open(hal: Hal, cfg: Config) returns (c: PcaPress, ok: bool, ghost done: seq<Event>)
      requires cfg.freqHz != 0
      modifies hal
      ensures fresh(c) && c.hal == hal
      ensures hal.trace == old(hal.trace) + done
      ensures Progress(RestTrace(cfg), done, ok)
      ensures c.angle == Replay(map[], done)
      ensures ok ==> c.angle == SeedAngles(cfg)
    {
      c := new PcaPress(hal);
      var w1, w2 := WriteOf(cfg, cfg.leftCh, cfg.leftRest), WriteOf(cfg, cfg.rightCh, cfg.rightRest);
      ok := c.SetAngle(cfg, cfg.leftCh, cfg.leftRest);
      if !ok {
        done := [];
        AbortAt([], w1, [w2]);
        assert [] + [w1] + [w2] == RestTrace(cfg);
        return;
      }
      ok := c.SetAngle(cfg, cfg.rightCh, cfg.rightRest);
      if ok {
        done := [w1, w2];
        RestTraceSeeds(cfg, map[]);
      } else {
        done := [w1];
        AbortAt([w1], w2, []);
        assert [w1] + [w2] + [] == RestTrace(cfg);
        ReplayOne(map[], w1);
      }
    }

    /** `set_angle`: one duty write for the clamped angle; on success the unclamped angle is tracked
        for this channel and no other. A failed write changes nothing. */
    method SetAngle(cfg: Config, ch: int, a: real) returns (ok: bool)
      requires cfg.freqHz != 0
      modifies hal, this
      ensures hal.trace == old(hal.trace) + (if ok then [WriteOf(cfg, ch, a)] else [])
      ensures angle == if ok then old(angle)[ch := a] else old(angle)
    {
      var pulse := AngleToPulseUs(cfg.minUs, cfg.maxUs, a);
      ok := hal.SetDuty(ch, PulseUsToDuty(cfg.freqHz, pulse), a);
      if ok {
        angle := angle[ch := a];
      }
    }

    /** `move_smooth`: from the tracked angle (or the target, if the channel is untracked) step towards
        the target, writing and sleeping at each loop angle, then write the target itself. */
    method MoveSmooth(cfg: Config, ch: int, target: real) returns (ok: bool, ghost done: seq<Event>)
      requires cfg.freqHz != 0
      modifies hal, this
      ensures hal.trace == old(hal.trace) + done
      ensures Progress(MoveTrace(cfg, old(angle), ch, target), done, ok)
      ensures angle == Replay(old(angle), done)
    {
      ghost var m0 := angle;
      var start := if ch in angle then angle[ch] else target;
      ghost var steps := [];
      if start != target {
        var step := if target > start then cfg.stepDeg else -cfg.stepDeg;
        ok, steps := StepTowards(cfg, ch, start, target, step);
        if !ok {
          done := steps;
          ProgressAbort(StepTrace(cfg, ch, Ramp(start, target, step)), [WriteOf(cfg, ch, target)], done);
          return;
        }
      }
      ok := SetAngle(cfg, ch, target);
      if ok {
        ReplaySnoc(m0, steps, WriteOf(cfg, ch, target));
        done := steps + [WriteOf(cfg, ch, target)];
      } else {
        done := steps;
        AbortAt(steps, WriteOf(cfg, ch, target), []);
        assert steps + [WriteOf(cfg, ch, target)] + [] == MoveTrace(cfg, m0, ch, target);
      }
    }

    /** The loop of `move_smooth`: write each angle of the ramp from `start`, advance, and sleep. */
    method StepTowards(cfg: Config, ch: int, start: real, target: real, step: real) returns (ok: bool, ghost done: seq<Event>)
      requires cfg.freqHz != 0
      modifies hal, this
      ensures hal.trace == old(hal.trace) + done
      ensures Progress(StepTrace(cfg, ch, Ramp(start, target, step)), done, ok)
      ensures angle == Replay(old(angle), done)
    {
      ghost var m0, log0 := angle, hal.trace;
      ghost var mids := Ramp(start, target, step);
      ghost var visited: seq<real> := [];
      var a := start;
      ok := true;
      done := [];
      while Continues(a, target, step)
        invariant mids == visited + Ramp(a, target, step)
        invariant done == StepTrace(cfg, ch, visited)
        invariant hal.trace == old(hal.trace) + done
        invariant angle == Replay(m0, done)
        invariant visited == [] || cfg.stepDelay >= 0.0
        decreases RampMeasure(a, target, step)
      {
        ghost var x := a;
        ok := SetAngle(cfg, ch, a);
        if !ok {
          RampAbort(cfg, ch, visited, x, Ramp(x + step, target, step));
          return;
        }
        RampAdvance(visited, x, target, step);
        RampMeasureDecreases(x, target, step);
        a := a + step;
        ok := hal.Sleep(cfg.stepDelay);
        if !ok {
          assert visited == [] && done == [];
          RampSleepFails(cfg, ch, x, Ramp(a, target, step));
          ReplayOne(m0, WriteOf(cfg, ch, x));
          AppendAssoc(log0, done, [WriteOf(cfg, ch, x)]);
          done := done + [WriteOf(cfg, ch, x)];
          return;
        }
        StepLogged(cfg, m0, ch, visited, x);
        AppendAssoc(log0 + done, [WriteOf(cfg, ch, x)], [Sleep(cfg.stepDelay)]);
        AppendAssoc(log0, done, [WriteOf(cfg, ch, x), Sleep(cfg.stepDelay)]);
        visited := visited + [x];
        done := done + [WriteOf(cfg, ch, x), Sleep(cfg.stepDelay)];
      }
      assert visited == mids;
      StepTraceSleeps(cfg, ch, visited);
    }

    /** `press_once`: ramp to the press angle, hold, ramp back to rest. */
    method PressOnce(cfg: Config, ch: int, rest: real, press: real) returns (ok: bool, ghost done: seq<Event>)
      requires cfg.freqHz != 0
      modifies hal, this
      ensures hal.trace == old(hal.trace) + done
      ensures Progress(PressOnceTrace(cfg, old(angle), ch, rest, press), done, ok)
      ensures angle == Replay(old(angle), done)
    {
      ghost var m0 := angle;
      ghost var d1, d2;
      ok, d1 := MoveSmooth(cfg, ch, press);
      if !ok {
        done := d1;
        PressOnceStops(cfg, m0, ch, rest, press, d1);
        return;
      }
      MoveTracks(cfg, m0, ch, press);
      ok := hal.Sleep(cfg.pressHold);
      if !ok {
        done := d1;
        PressOnceHoldFails(cfg, m0, ch, rest, press);
        return;
      }
      ok, d2 := MoveSmooth(cfg, ch, rest);
      done := d1 + [Sleep(cfg.pressHold)] + d2;
      PressOnceReturns(cfg, m0, ch, rest, press, d2, ok);
      AppendAssoc(old(hal.trace), d1, [Sleep(cfg.pressHold)]);
      AppendAssoc(old(hal.trace), d1 + [Sleep(cfg.pressHold)], d2);
    }

    /** `press_left`: press the left channel with its own angles; "OK" unless the hardware failed. */
    method PressLeft(cfg: Config) returns (r: Reply, ghost done: seq<Event>)
      requires cfg.freqHz != 0
      modifies hal, this
      ensures hal.trace == old(hal.trace) + done
      ensures Progress(PressOnceTrace(cfg, old(angle), cfg.leftCh, cfg.leftRest, cfg.leftPress), done, r.Ok?)
      ensures r.Ok? ==> r.text == "OK"
      ensures angle == Replay(old(angle), done)
    {
      var ok;
      ok, done := PressOnce(cfg, cfg.leftCh, cfg.leftRest, cfg.leftPress);
      r := if ok then Ok("OK") else Raised;
    }

    /** `press_right`: press the right channel with its own angles; "OK" unless the hardware failed. */
    method PressRight(cfg: Config) returns (r: Reply, ghost done: seq<Event>)
      requires cfg.freqHz != 0
      modifies hal, this
      ensures hal.trace == old(hal.trace) + done
      ensures Progress(PressOnceTrace(cfg, old(angle), cfg.rightCh, cfg.rightRest, cfg.rightPress), done, r.Ok?)
      ensures r.Ok? ==> r.text == "OK"
      ensures angle == Replay(old(angle), done)
    {
      var ok;
      ok, done := PressOnce(cfg, cfg.rightCh, cfg.rightRest, cfg.rightPress);
      r := if ok then Ok("OK") else Raised;
    }

    /** `press_both`: left to press, right to press, one hold, left to rest, right to rest. */
    method PressBoth(cfg: Config) returns (r: Reply, ghost done: seq<Event>)
      requires cfg.freqHz != 0
      modifies hal, this
      ensures hal.trace == old(hal.trace) + done
      ensures Progress(PressBothTrace(cfg, old(angle)), done, r.Ok?)
      ensures r.Ok? ==> r.text == "OK"
      ensures angle == Replay(old(angle), done)
    {
      ghost var m0, log0 := angle, hal.trace;
      ghost var hold := [Sleep(cfg.pressHold)];
      var ok;
      ghost var d1, d2, d3, d4;
      r := Raised;
      ok, d1 := MoveSmooth(cfg, cfg.leftCh, cfg.leftPress);
      if !ok {
        done := d1;
        PressBothStopsFirst(cfg, m0, d1);
        return;
      }
      MoveTracks(cfg, m0, cfg.leftCh, cfg.leftPress);
      ok, d2 := MoveSmooth(cfg, cfg.rightCh, cfg.rightPress);
      AppendAssoc(log0, d1, d2);
      if !ok {
        done := d1 + d2;
        PressBothStopsSecond(cfg, m0, d2);
        return;
      }
      MoveTracks(cfg, m0[cfg.leftCh := cfg.leftPress], cfg.rightCh, cfg.rightPress);
      ok := hal.Sleep(cfg.pressHold);
      if !ok {
        done := d1 + d2;
        PressBothHoldFails(cfg, m0);
        return;
      }
      AppendAssoc(log0, d1 + d2, hold);
      ok, d3 := MoveSmooth(cfg, cfg.leftCh, cfg.leftRest);
      AppendAssoc(log0, d1 + d2 + hold, d3);
      if !ok {
        done := d1 + d2 + hold + d3;
        PressBothStopsThird(cfg, m0, d3);
        return;
      }
      MoveTracks(cfg, m0[cfg.leftCh := cfg.leftPress][cfg.rightCh := cfg.rightPress], cfg.leftCh, cfg.leftRest);
      ok, d4 := MoveSmooth(cfg, cfg.rightCh, cfg.rightRest);
      AppendAssoc(log0, d1 + d2 + hold + d3, d4);
      done := d1 + d2 + hold + d3 + d4;
      PressBothReturns(cfg, m0, d4, ok);
      r := if ok then Ok("OK") else Raised;
    }

    /** `close`: drive the left and then the right channel to rest, stopping at the first failing
        write, then release the chip. No failure reaches the caller. */
    method Close(cfg: Config) returns (ghost done: seq<Event>)
      requires cfg.freqHz != 0
      modifies hal, this
      ensures hal.trace == old(hal.trace) + done
      ensures IsCloseTrace(cfg, done)
      ensures angle == Replay(old(angle), done)
    {
      ghost var m0, log0 := angle, hal.trace;
      ghost var n := 0;
      var ok := SetAngle(cfg, cfg.leftCh, cfg.leftRest);
      if ok {
        n := 1;
        assert RestTrace(cfg)[..1] == [WriteOf(cfg, cfg.leftCh, cfg.leftRest)];
        ReplayOne(m0, WriteOf(cfg, cfg.leftCh, cfg.leftRest));
        ok := SetAngle(cfg, cfg.rightCh, cfg.rightRest);
        if ok {
          n := 2;
          assert RestTrace(cfg)[..2] == RestTrace(cfg);
          RestTraceSeeds(cfg, m0);
        }
      }
      var released := hal.Deinit();
      done := RestTrace(cfg)[..n] + (if released then [Release] else []);
      AppendAssoc(log0, RestTrace(cfg)[..n], if released then [Release] else []);
      CloseTraceShape(cfg, m0, n, released);
    }
  }
}
