/** The specification of the motion sequencer: which angles a smooth move visits, and the exact sequence
    of hardware events (duty writes, sleeps, chip release) that each controller operation produces. */
module Motion {
  import opened Settings
  import opened Conversion

  /** One observable action of the controller. `Write` is one `set_angle`: the channel, the commanded
      angle (kept so that the tracked angles can be replayed from the log) and the duty value put on
      the channel. `Sleep` is a `time.sleep`; `Release` is a successful `deinit` of the chip. */
  datatype Event =
    | Write(ch: int, angle: real, duty: int)
    | Sleep(seconds: real)
    | Release

  /** The write `set_angle(ch, angle)` issues. */
  function WriteOf(cfg: Config, ch: int, angle: real): (e: Event)
    requires cfg.freqHz != 0
    ensures e.Write? && e.ch == ch && e.angle == angle && 0 <= e.duty <= FullScale
  {
    Write(ch, angle, AngleToDuty(cfg, angle))
  }

  // ---------------------------------------------------------------------------------------------
  // The ramp of move_smooth

  /** The guard of the ramp loop: `a` is still strictly before `target` in the direction of `step`. */
  predicate Continues(a: real, target: real, step: real)
  {
    (a < target && step > 0.0) || (a > target && step < 0.0)
  }

  /** A bound on the number of loop iterations still to come. */
  function RampMeasure(a: real, target: real, step: real): int
  {
    if Continues(a, target, step) then ((target - a) / step).Floor + 1 else 0
  }

  lemma RampMeasureDecreases(a: real, target: real, step: real)
    requires Continues(a, target, step)
    ensures 0 <= RampMeasure(a + step, target, step) < RampMeasure(a, target, step)
  {
    assert step / step == 1.0;
    assert (target - (a + step)) / step == (target - a) / step - step / step;
    assert (target - a) / step > 0.0;
  }

  /** The angles the ramp loop writes, starting at `a` and adding `step` while the guard holds. */
  function Ramp(a: real, target: real, step: real): seq<real>
    decreases RampMeasure(a, target, step)
  {
    if Continues(a, target, step) then
      RampMeasureDecreases(a, target, step);
      [a] + Ramp(a + step, target, step)
    else
      []
  }

  /** The ramp starts at `a`, each angle is the previous one plus `step`, every angle is strictly
      before the target and on the far side of `a` from where the step points, and the angle after
      the last one is no longer before the target. */
  lemma {:induction false} RampShape(a: real, target: real, step: real)
    decreases RampMeasure(a, target, step)
    ensures var r := Ramp(a, target, step);
      && (|r| > 0 <==> Continues(a, target, step))
      && (|r| > 0 ==> r[0] == a && !Continues(r[|r| - 1] + step, target, step))
      && (forall i :: 0 <= i < |r| - 1 ==> r[i + 1] == r[i] + step)
      && (forall x :: x in r ==> Continues(x, target, step) && (step > 0.0 ==> a <= x) && (step < 0.0 ==> x <= a))
  {
    if Continues(a, target, step) {
      RampMeasureDecreases(a, target, step);
      RampShape(a + step, target, step);
      var r' := Ramp(a + step, target, step);
      var r := [a] + r';
      assert Ramp(a, target, step) == r;
      forall i | 0 <= i < |r| - 1 ensures r[i + 1] == r[i] + step {
        if i > 0 {
          assert r[i + 1] == r'[i] && r[i] == r'[i - 1];
        }
      }
      forall x | x in r
        ensures Continues(x, target, step) && (step > 0.0 ==> a <= x) && (step < 0.0 ==> x <= a)
      {
        if x != a {
          assert x in r';
        }
      }
    }
  }

  /** Consecutive differences of `step` starting at `a` give the closed form a + i * step. */
  lemma {:induction false} ArithmeticAt(r: seq<real>, a: real, step: real, i: nat)
    requires |r| > 0 && r[0] == a
    requires forall j :: 0 <= j < |r| - 1 ==> r[j + 1] == r[j] + step
    requires i < |r|
    ensures r[i] == a + (i as real) * step
  {
    if i > 0 {
      ArithmeticAt(r, a, step, i - 1);
      assert r[i] == r[i - 1] + step;
      assert ((i - 1) as real) * step + step == (i as real) * step;
    }
  }

  // ---------------------------------------------------------------------------------------------
  // Traces of the controller operations

  /** `self._angle.get(ch, target)`: the tracked angle, or the target itself for an untracked channel. */
  function StartAngle(angles: map<int, real>, ch: int, target: real): real
  {
    if ch in angles then angles[ch] else target
  }

  /** `STEP_DEG if target > start else -STEP_DEG`. */
  function StepOf(stepDeg: real, start: real, target: real): real
  {
    if target > start then stepDeg else -stepDeg
  }

  /** The angles `move_smooth` writes inside its loop (before the final write of the target). */
  function MoveAngles(angles: map<int, real>, ch: int, target: real, stepDeg: real): seq<real>
  {
    var start := StartAngle(angles, ch, target);
    if start == target then [] else Ramp(start, target, StepOf(stepDeg, start, target))
  }

  /** Each loop angle is written and followed by a sleep of `STEP_DELAY`. */
  function StepTrace(cfg: Config, ch: int, mids: seq<real>): seq<Event>
    requires cfg.freqHz != 0
  {
    if mids == [] then [] else [WriteOf(cfg, ch, mids[0]), Sleep(cfg.stepDelay)] + StepTrace(cfg, ch, mids[1..])
  }

  lemma {:induction false} StepTraceAppend(cfg: Config, ch: int, s: seq<real>, t: seq<real>)
    requires cfg.freqHz != 0
    ensures StepTrace(cfg, ch, s + t) == StepTrace(cfg, ch, s) + StepTrace(cfg, ch, t)
  {
    if s != [] {
      assert (s + t)[1..] == s[1..] + t;
      StepTraceAppend(cfg, ch, s[1..], t);
    } else {
      assert s + t == t;
    }
  }

  /** Position 2i of a step trace writes the i-th loop angle, position 2i+1 sleeps. */
  lemma {:induction false} StepTraceAt(cfg: Config, ch: int, mids: seq<real>)
    requires cfg.freqHz != 0
    ensures |StepTrace(cfg, ch, mids)| == 2 * |mids|
    ensures forall i :: 0 <= i < |mids| ==>
      StepTrace(cfg, ch, mids)[2 * i] == WriteOf(cfg, ch, mids[i]) && StepTrace(cfg, ch, mids)[2 * i + 1] == Sleep(cfg.stepDelay)
  {
    if mids != [] {
      StepTraceAt(cfg, ch, mids[1..]);
      var t := StepTrace(cfg, ch, mids);
      forall i | 0 <= i < |mids|
        ensures t[2 * i] == WriteOf(cfg, ch, mids[i]) && t[2 * i + 1] == Sleep(cfg.stepDelay)
      {
        if i > 0 {
          assert t[2 * i] == StepTrace(cfg, ch, mids[1..])[2 * (i - 1)];
          assert t[2 * i + 1] == StepTrace(cfg, ch, mids[1..])[2 * (i - 1) + 1];
        }
      }
    }
  }

  /** Everything `move_smooth(ch, target)` does when no write fails. */
  function MoveTrace(cfg: Config, angles: map<int, real>, ch: int, target: real): seq<Event>
    requires cfg.freqHz != 0
  {
    StepTrace(cfg, ch, MoveAngles(angles, ch, target, cfg.stepDeg)) + [WriteOf(cfg, ch, target)]
  }

  /** `press_once`: ramp to the press angle, hold, ramp back to the rest angle. */
  function PressOnceTrace(cfg: Config, angles: map<int, real>, ch: int, rest: real, press: real): seq<Event>
    requires cfg.freqHz != 0
  {
    MoveTrace(cfg, angles, ch, press) + [Sleep(cfg.pressHold)] + MoveTrace(cfg, angles[ch := press], ch, rest)
  }

  /** The four moves of `press_both`, each from the table the previous ones left: left to press,
      right to press, left to rest, right to rest. */
  function BothRamps(cfg: Config, m: map<int, real>): (r: (seq<Event>, seq<Event>, seq<Event>, seq<Event>))
    requires cfg.freqHz != 0
  {
    var m1 := m[cfg.leftCh := cfg.leftPress];
    var m2 := m1[cfg.rightCh := cfg.rightPress];
    var m3 := m2[cfg.leftCh := cfg.leftRest];
    (MoveTrace(cfg, m, cfg.leftCh, cfg.leftPress), MoveTrace(cfg, m1, cfg.rightCh, cfg.rightPress),
     MoveTrace(cfg, m2, cfg.leftCh, cfg.leftRest), MoveTrace(cfg, m3, cfg.rightCh, cfg.rightRest))
  }

  /** `press_both`: the two moves to press, one shared hold, the two moves back to rest. */
  function PressBothTrace(cfg: Config, angles: map<int, real>): seq<Event>
    requires cfg.freqHz != 0
  {
    var r := BothRamps(cfg, angles);
    r.0 + (r.1 + ([Sleep(cfg.pressHold)] + (r.2 + r.3)))
  }

  /** The two writes that drive both channels to rest, left first: issued when a controller is
      constructed and again when it is closed. */
  function RestTrace(cfg: Config): seq<Event>
    requires cfg.freqHz != 0
  {
    [WriteOf(cfg, cfg.leftCh, cfg.leftRest), WriteOf(cfg, cfg.rightCh, cfg.rightRest)]
  }

  /** The tracked angles of a freshly constructed controller. */
  function SeedAngles(cfg: Config): (r: map<int, real>)
    ensures r.Keys == {cfg.leftCh, cfg.rightCh}
    ensures r[cfg.rightCh] == cfg.rightRest && (cfg.leftCh != cfg.rightCh ==> r[cfg.leftCh] == cfg.leftRest)
  {
    map[cfg.leftCh := cfg.leftRest][cfg.rightCh := cfg.rightRest]
  }

  /** What `_PCAPress.close` may leave in the log: the rest writes up to the first failing one, then
      the release of the chip unless `deinit` failed. */
  predicate IsCloseTrace(cfg: Config, s: seq<Event>)
    requires cfg.freqHz != 0
  {
    var writes := if |s| > 0 && s[|s| - 1] == Release then s[..|s| - 1] else s;
    writes == [] || writes == RestTrace(cfg)[..1] || writes == RestTrace(cfg)
  }

  // ---------------------------------------------------------------------------------------------
  // Channel state replayed from the log, and partial executions

  /** How one event changes the tracked angles: a write records its angle for its channel. */
  function Apply(m: map<int, real>, e: Event): map<int, real>
  {
    if e.Write? then m[e.ch := e.angle] else m
  }

  /** The tracked angles after the events `es`. */
  function Replay(m: map<int, real>, es: seq<Event>): map<int, real>
    decreases |es|
  {
    if es == [] then m else Replay(Apply(m, es[0]), es[1..])
  }

  lemma {:induction false} ReplayAppend(m: map<int, real>, s: seq<Event>, t: seq<Event>)
    decreases |s|
    ensures Replay(m, s + t) == Replay(Replay(m, s), t)
  {
    if s != [] {
      assert (s + t)[1..] == s[1..] + t;
      ReplayAppend(Apply(m, s[0]), s[1..], t);
    } else {
      assert s + t == t;
    }
  }

  lemma ReplayOne(m: map<int, real>, e: Event)
    ensures Replay(m, [e]) == Apply(m, e)
  {
    assert [e][1..] == [];
  }

  /** A step trace on `ch` only ever changes the tracked angle of `ch`. */
  lemma {:induction false} ReplayStepTrace(cfg: Config, m: map<int, real>, ch: int, mids: seq<real>, x: real)
    requires cfg.freqHz != 0
    decreases |mids|
    ensures Replay(m, StepTrace(cfg, ch, mids))[ch := x] == m[ch := x]
  {
    if mids != [] {
      var w, z := WriteOf(cfg, ch, mids[0]), Sleep(cfg.stepDelay);
      var rest := StepTrace(cfg, ch, mids[1..]);
      assert StepTrace(cfg, ch, mids) == [w] + ([z] + rest);
      ReplayAppend(m, [w], [z] + rest);
      ReplayOne(m, w);
      ReplayAppend(Apply(m, w), [z], rest);
      ReplayOne(Apply(m, w), z);
      ReplayStepTrace(cfg, m[ch := mids[0]], ch, mids[1..], x);
      assert m[ch := mids[0]][ch := x] == m[ch := x];
    }
  }

  /** After a complete move the tracked angle of `ch` is the target and nothing else changed. */
  lemma MoveTracks(cfg: Config, m: map<int, real>, ch: int, target: real)
    requires cfg.freqHz != 0
    ensures Replay(m, MoveTrace(cfg, m, ch, target)) == m[ch := target]
  {
    var mids := MoveAngles(m, ch, target, cfg.stepDeg);
    var st := StepTrace(cfg, ch, mids);
    ReplayAppend(m, st, [WriteOf(cfg, ch, target)]);
    ReplayStepTrace(cfg, m, ch, mids, target);
    assert [WriteOf(cfg, ch, target)][1..] == [];
  }

  /** Replaying one more event applies it to the replayed state. */
  lemma ReplaySnoc(m: map<int, real>, s: seq<Event>, e: Event)
    ensures Replay(m, s + [e]) == Apply(Replay(m, s), e)
  {
    ReplayAppend(m, s, [e]);
    ReplayOne(Replay(m, s), e);
  }

  /** One more loop angle adds its write and its sleep to the step trace. */
  lemma StepTraceSnoc(cfg: Config, ch: int, s: seq<real>, a: real)
    requires cfg.freqHz != 0
    ensures StepTrace(cfg, ch, s + [a]) == StepTrace(cfg, ch, s) + [WriteOf(cfg, ch, a), Sleep(cfg.stepDelay)]
  {
    StepTraceAppend(cfg, ch, s, [a]);
    assert [a][1..] == [];
  }

  /** Regrouping a log that grows by appending. */
  lemma AppendAssoc<T>(a: seq<T>, b: seq<T>, c: seq<T>)
    ensures a + b + c == a + (b + c)
  {
  }

  /** What `close` logs after `n` successful rest writes and a release that did or did not succeed:
      a close trace, and the release leaves the tracked angles alone. */
  lemma CloseTraceShape(cfg: Config, m: map<int, real>, n: nat, released: bool)
    requires cfg.freqHz != 0 && n <= 2
    ensures var done := RestTrace(cfg)[..n] + (if released then [Release] else []);
      IsCloseTrace(cfg, done) && Replay(m, done) == Replay(m, RestTrace(cfg)[..n])
  {
    var writes := RestTrace(cfg)[..n];
    assert writes == [] || writes == RestTrace(cfg)[..1] || writes == RestTrace(cfg);
    if released {
      var done := writes + [Release];
      assert done[..|done| - 1] == writes;
      ReplaySnoc(m, writes, Release);
    } else {
      assert |writes| == 0 || writes[|writes| - 1] != Release;
      assert writes + [] == writes;
    }
  }

  /** Repeating `set_angle(ch, a)` repeats the identical write and leaves the tracked angles as
      one call left them. */
  lemma WriteIdempotent(cfg: Config, m: map<int, real>, ch: int, a: real)
    requires cfg.freqHz != 0
    ensures var w := WriteOf(cfg, ch, a);
      Replay(m, [w, w]) == Replay(m, [w]) == m[ch := a]
  {
    var w := WriteOf(cfg, ch, a);
    ReplaySnoc(m, [w], w);
    ReplayOne(m, w);
    assert [w] + [w] == [w, w];
  }

  /** A sleep `time.sleep` refuses: a negative duration raises `ValueError` before any waiting. */
  predicate Refused(e: Event)
  {
    e.Sleep? && e.seconds < 0.0
  }

  /** An event whose call may raise: any duty write (the bus or the chip may fail) and a refused sleep. */
  predicate Fallible(e: Event)
  {
    e.Write? || Refused(e)
  }

  /** Nothing in `s` is a refused sleep: every sleep that was logged really happened. */
  predicate SleepsValid(s: seq<Event>)
  {
    forall e :: e in s ==> !Refused(e)
  }

  /** A partial run: `done` is what actually happened, and it holds no refused sleep. A run that
      succeeded did all of `full`; a run that failed stopped just before some event of `full` that
      may raise, which is not logged. */
  predicate Progress(full: seq<Event>, done: seq<Event>, ok: bool)
  {
    SleepsValid(done) &&
    if ok then done == full
    else exists k :: 0 <= k < |full| && Fallible(full[k]) && done == full[..k]
  }

  /** A run that succeeded met no refused sleep: once `full` holds one, every run of it fails. */
  lemma RefusedFails(full: seq<Event>, done: seq<Event>, ok: bool, i: nat)
    requires i < |full| && Refused(full[i])
    requires Progress(full, done, ok)
    ensures !ok
  {
    assert full[i] in full;
  }

  /** A failure at an event that may raise splits the trace there. */
  lemma AbortAt(pre: seq<Event>, e: Event, post: seq<Event>)
    requires Fallible(e) && SleepsValid(pre)
    ensures Progress(pre + [e] + post, pre, false)
  {
    var full := pre + [e] + post;
    assert full[|pre|] == e && full[..|pre|] == pre;
  }

  /** A completed first part followed by a partial second part is a partial run of the whole. */
  lemma ProgressThen(first: seq<Event>, full: seq<Event>, done: seq<Event>, ok: bool)
    requires SleepsValid(first) && Progress(full, done, ok)
    ensures Progress(first + full, first + done, ok)
  {
    assert SleepsValid(first + done);
    if !ok {
      var k :| 0 <= k < |full| && Fallible(full[k]) && done == full[..k];
      var whole := first + full;
      assert whole[|first| + k] == full[k];
      assert whole[..|first| + k] == first + done;
    }
  }

  /** A failed run of a first part is a failed run of anything that starts with it. */
  lemma ProgressAbort(full: seq<Event>, rest: seq<Event>, done: seq<Event>)
    requires Progress(full, done, false)
    ensures Progress(full + rest, done, false)
  {
    var k :| 0 <= k < |full| && Fallible(full[k]) && done == full[..k];
    assert (full + rest)[k] == full[k];
    assert (full + rest)[..k] == full[..k];
  }

  /** One turn of the ramp loop moves its angle from the ramp still to come to the angles visited. */
  lemma RampAdvance(visited: seq<real>, a: real, target: real, step: real)
    requires Continues(a, target, step)
    ensures visited + Ramp(a, target, step) == (visited + [a]) + Ramp(a + step, target, step)
  {
    assert Ramp(a, target, step) == [a] + Ramp(a + step, target, step);
  }

  /** One turn of the ramp loop adds its write and its sleep to the trace and tracks its angle. */
  lemma StepLogged(cfg: Config, m: map<int, real>, ch: int, visited: seq<real>, a: real)
    requires cfg.freqHz != 0
    ensures StepTrace(cfg, ch, visited + [a]) == StepTrace(cfg, ch, visited) + [WriteOf(cfg, ch, a), Sleep(cfg.stepDelay)]
    ensures Replay(m, StepTrace(cfg, ch, visited + [a])) == Replay(m, StepTrace(cfg, ch, visited))[ch := a]
  {
    StepTraceSnoc(cfg, ch, visited, a);
    var done := StepTrace(cfg, ch, visited);
    ReplaySnoc(m, done, WriteOf(cfg, ch, a));
    ReplaySnoc(m, done + [WriteOf(cfg, ch, a)], Sleep(cfg.stepDelay));
    AppendAssoc(done, [WriteOf(cfg, ch, a)], [Sleep(cfg.stepDelay)]);
    assert [WriteOf(cfg, ch, a)] + [Sleep(cfg.stepDelay)] == [WriteOf(cfg, ch, a), Sleep(cfg.stepDelay)];
  }

  /** The only sleeps of a step trace are `STEP_DELAY`s, one per loop angle. */
  lemma {:induction false} StepTraceSleeps(cfg: Config, ch: int, mids: seq<real>)
    requires cfg.freqHz != 0 && (mids == [] || cfg.stepDelay >= 0.0)
    ensures SleepsValid(StepTrace(cfg, ch, mids))
  {
    if mids != [] {
      StepTraceSleeps(cfg, ch, mids[1..]);
      assert StepTrace(cfg, ch, mids) == [WriteOf(cfg, ch, mids[0]), Sleep(cfg.stepDelay)] + StepTrace(cfg, ch, mids[1..]);
    }
  }

  /** A ramp whose write of loop angle `a` fails has done the steps before `a` and nothing more. */
  lemma RampAbort(cfg: Config, ch: int, before: seq<real>, a: real, after: seq<real>)
    requires cfg.freqHz != 0 && (before == [] || cfg.stepDelay >= 0.0)
    ensures Progress(StepTrace(cfg, ch, before + ([a] + after)), StepTrace(cfg, ch, before), false)
  {
    StepTraceSleeps(cfg, ch, before);
    StepTraceAppend(cfg, ch, before, [a] + after);
    assert ([a] + after)[1..] == after;
    var post := [Sleep(cfg.stepDelay)] + StepTrace(cfg, ch, after);
    AbortAt(StepTrace(cfg, ch, before), WriteOf(cfg, ch, a), post);
    assert StepTrace(cfg, ch, before + ([a] + after)) == StepTrace(cfg, ch, before) + [WriteOf(cfg, ch, a)] + post;
  }

  /** A negative `STEP_DELAY` makes the sleep after the first loop angle fail: the ramp has done
      that one write and nothing more. */
  lemma RampSleepFails(cfg: Config, ch: int, a: real, after: seq<real>)
    requires cfg.freqHz != 0 && cfg.stepDelay < 0.0
    ensures Progress(StepTrace(cfg, ch, [a] + after), [WriteOf(cfg, ch, a)], false)
  {
    assert ([a] + after)[1..] == after;
    assert StepTrace(cfg, ch, [a] + after) == [WriteOf(cfg, ch, a)] + [Sleep(cfg.stepDelay)] + StepTrace(cfg, ch, after);
    AbortAt([WriteOf(cfg, ch, a)], Sleep(cfg.stepDelay), StepTrace(cfg, ch, after));
  }

  /** Running a completed stage, a fixed middle part and then a partial stage is a partial run of
      the three in sequence, and the replay goes through them one after another. */
  lemma Compose(m: map<int, real>, t1: seq<Event>, mid: seq<Event>, t2: seq<Event>, d2: seq<Event>, ok: bool)
    requires SleepsValid(t1) && SleepsValid(mid) && Progress(t2, d2, ok)
    ensures Progress(t1 + mid + t2, t1 + mid + d2, ok)
    ensures Replay(m, t1 + mid + d2) == Replay(Replay(Replay(m, t1), mid), d2)
  {
    assert SleepsValid(t1 + mid);
    ProgressThen(t1 + mid, t2, d2, ok);
    ReplayAppend(m, t1 + mid, d2);
    ReplayAppend(m, t1, mid);
  }

  /** A sleep that happened was not refused. */
  lemma SleepValid(seconds: real)
    requires seconds >= 0.0
    ensures SleepsValid([Sleep(seconds)])
  {
  }

  /** A sleep leaves the tracked angles alone. */
  lemma ReplaySleep(m: map<int, real>, seconds: real)
    ensures Replay(m, [Sleep(seconds)]) == m
  {
    ReplayOne(m, Sleep(seconds));
  }

  /** `press_once` stopped by a failure on the way to the press angle. */
  lemma PressOnceStops(cfg: Config, m: map<int, real>, ch: int, rest: real, press: real, d1: seq<Event>)
    requires cfg.freqHz != 0
    requires Progress(MoveTrace(cfg, m, ch, press), d1, false)
    ensures Progress(PressOnceTrace(cfg, m, ch, rest, press), d1, false)
  {
    var t1, hold, t2 := MoveTrace(cfg, m, ch, press), [Sleep(cfg.pressHold)], MoveTrace(cfg, m[ch := press], ch, rest);
    ProgressAbort(t1, hold + t2, d1);
    assert t1 + (hold + t2) == PressOnceTrace(cfg, m, ch, rest, press);
  }

  /** `press_once` stopped by a refused hold, after it reached the press angle. */
  lemma PressOnceHoldFails(cfg: Config, m: map<int, real>, ch: int, rest: real, press: real)
    requires cfg.freqHz != 0 && cfg.pressHold < 0.0
    requires SleepsValid(MoveTrace(cfg, m, ch, press))
    ensures Progress(PressOnceTrace(cfg, m, ch, rest, press), MoveTrace(cfg, m, ch, press), false)
  {
    AbortAt(MoveTrace(cfg, m, ch, press), Sleep(cfg.pressHold), MoveTrace(cfg, m[ch := press], ch, rest));
  }

  /** `press_once` past the hold: the partial run of the return ramp extends the completed press
      ramp and hold, and the replay passes through the press angle. */
  lemma PressOnceReturns(cfg: Config, m: map<int, real>, ch: int, rest: real, press: real, d2: seq<Event>, ok: bool)
    requires cfg.freqHz != 0 && cfg.pressHold >= 0.0
    requires SleepsValid(MoveTrace(cfg, m, ch, press))
    requires Progress(MoveTrace(cfg, m[ch := press], ch, rest), d2, ok)
    ensures var pre := MoveTrace(cfg, m, ch, press) + [Sleep(cfg.pressHold)];
      Progress(PressOnceTrace(cfg, m, ch, rest, press), pre + d2, ok) &&
      Replay(m, pre + d2) == Replay(m[ch := press], d2)
  {
    var t1, hold := MoveTrace(cfg, m, ch, press), [Sleep(cfg.pressHold)];
    SleepValid(cfg.pressHold);
    Compose(m, t1, hold, MoveTrace(cfg, m[ch := press], ch, rest), d2, ok);
    MoveTracks(cfg, m, ch, press);
    ReplaySleep(m[ch := press], cfg.pressHold);
  }

  /** `press_both` stopped by a failure on the left channel's way to its press angle. */
  lemma PressBothStopsFirst(cfg: Config, m: map<int, real>, d1: seq<Event>)
    requires cfg.freqHz != 0
    requires Progress(MoveTrace(cfg, m, cfg.leftCh, cfg.leftPress), d1, false)
    ensures Progress(PressBothTrace(cfg, m), d1, false)
  {
    var r := BothRamps(cfg, m);
    ProgressAbort(r.0, r.1 + ([Sleep(cfg.pressHold)] + (r.2 + r.3)), d1);
  }

  /** `press_both` stopped by a failure on the right channel's way to its press angle. */
  lemma PressBothStopsSecond(cfg: Config, m: map<int, real>, d2: seq<Event>)
    requires cfg.freqHz != 0
    requires SleepsValid(MoveTrace(cfg, m, cfg.leftCh, cfg.leftPress))
    requires Progress(MoveTrace(cfg, m[cfg.leftCh := cfg.leftPress], cfg.rightCh, cfg.rightPress), d2, false)
    ensures var pre := MoveTrace(cfg, m, cfg.leftCh, cfg.leftPress);
      Progress(PressBothTrace(cfg, m), pre + d2, false) &&
      Replay(m, pre + d2) == Replay(m[cfg.leftCh := cfg.leftPress], d2)
  {
    var r := BothRamps(cfg, m);
    ProgressAbort(r.1, [Sleep(cfg.pressHold)] + (r.2 + r.3), d2);
    ProgressThen(r.0, r.1 + ([Sleep(cfg.pressHold)] + (r.2 + r.3)), d2, false);
    ReplayAfterMove(cfg, m, cfg.leftCh, cfg.leftPress, d2);
  }

  /** `press_both` stopped by a refused hold, after both channels reached their press angles. */
  lemma PressBothHoldFails(cfg: Config, m: map<int, real>)
    requires cfg.freqHz != 0 && cfg.pressHold < 0.0
    requires SleepsValid(MoveTrace(cfg, m, cfg.leftCh, cfg.leftPress))
    requires SleepsValid(MoveTrace(cfg, m[cfg.leftCh := cfg.leftPress], cfg.rightCh, cfg.rightPress))
    ensures var r := BothRamps(cfg, m);
      Progress(PressBothTrace(cfg, m), r.0 + r.1, false) &&
      Replay(m, r.0 + r.1) == m[cfg.leftCh := cfg.leftPress][cfg.rightCh := cfg.rightPress]
  {
    var r, hold := BothRamps(cfg, m), [Sleep(cfg.pressHold)];
    assert SleepsValid(r.0 + r.1);
    AbortAt(r.0 + r.1, Sleep(cfg.pressHold), r.2 + r.3);
    AppendAssoc(r.0, r.1, hold + (r.2 + r.3));
    AppendAssoc(r.0 + r.1, hold, r.2 + r.3);
    ReplayAfterTwoMoves(cfg, m, cfg.leftCh, cfg.leftPress, cfg.rightCh, cfg.rightPress, []);
    assert r.1 + [] == r.1;
  }

  /** `press_both` stopped by a failure on the left channel's way back to rest, after the hold. */
  lemma PressBothStopsThird(cfg: Config, m: map<int, real>, d3: seq<Event>)
    requires cfg.freqHz != 0 && cfg.pressHold >= 0.0
    requires SleepsValid(MoveTrace(cfg, m, cfg.leftCh, cfg.leftPress))
    requires SleepsValid(MoveTrace(cfg, m[cfg.leftCh := cfg.leftPress], cfg.rightCh, cfg.rightPress))
    requires var m2 := m[cfg.leftCh := cfg.leftPress][cfg.rightCh := cfg.rightPress];
      Progress(MoveTrace(cfg, m2, cfg.leftCh, cfg.leftRest), d3, false)
    ensures var r, m2 := BothRamps(cfg, m), m[cfg.leftCh := cfg.leftPress][cfg.rightCh := cfg.rightPress];
      var pre := r.0 + r.1 + [Sleep(cfg.pressHold)];
      Progress(PressBothTrace(cfg, m), pre + d3, false) && Replay(m, pre + d3) == Replay(m2, d3)
  {
    var r, hold := BothRamps(cfg, m), [Sleep(cfg.pressHold)];
    var m1 := m[cfg.leftCh := cfg.leftPress];
    SleepValid(cfg.pressHold);
    ProgressAbort(r.2, r.3, d3);
    ProgressThen(hold, r.2 + r.3, d3, false);
    ProgressThen(r.1, hold + (r.2 + r.3), hold + d3, false);
    ProgressThen(r.0, r.1 + (hold + (r.2 + r.3)), r.1 + (hold + d3), false);
    assert r.0 + r.1 + hold + d3 == r.0 + (r.1 + (hold + d3));
    ReplayAfterTwoMoves(cfg, m, cfg.leftCh, cfg.leftPress, cfg.rightCh, cfg.rightPress, hold + d3);
    ReplayAppend(m1[cfg.rightCh := cfg.rightPress], hold, d3);
    ReplaySleep(m1[cfg.rightCh := cfg.rightPress], cfg.pressHold);
  }

  /** `press_both` past the third ramp: the partial run of the right channel's return to rest
      extends everything before it. */
  lemma PressBothReturns(cfg: Config, m: map<int, real>, d4: seq<Event>, ok: bool)
    requires cfg.freqHz != 0 && cfg.pressHold >= 0.0
    requires SleepsValid(MoveTrace(cfg, m, cfg.leftCh, cfg.leftPress))
    requires SleepsValid(MoveTrace(cfg, m[cfg.leftCh := cfg.leftPress], cfg.rightCh, cfg.rightPress))
    requires SleepsValid(MoveTrace(cfg, m[cfg.leftCh := cfg.leftPress][cfg.rightCh := cfg.rightPress], cfg.leftCh, cfg.leftRest))
    requires var m3 := m[cfg.leftCh := cfg.leftPress][cfg.rightCh := cfg.rightPress][cfg.leftCh := cfg.leftRest];
      Progress(MoveTrace(cfg, m3, cfg.rightCh, cfg.rightRest), d4, ok)
    ensures var r := BothRamps(cfg, m);
      var m3 := m[cfg.leftCh := cfg.leftPress][cfg.rightCh := cfg.rightPress][cfg.leftCh := cfg.leftRest];
      var pre := r.0 + r.1 + [Sleep(cfg.pressHold)] + r.2;
      Progress(PressBothTrace(cfg, m), pre + d4, ok) && Replay(m, pre + d4) == Replay(m3, d4)
  {
    var r, hold := BothRamps(cfg, m), [Sleep(cfg.pressHold)];
    var m2 := m[cfg.leftCh := cfg.leftPress][cfg.rightCh := cfg.rightPress];
    var tail := hold + (r.2 + d4);
    SleepValid(cfg.pressHold);
    ProgressThen(r.2, r.3, d4, ok);
    ProgressThen(hold, r.2 + r.3, r.2 + d4, ok);
    ProgressThen(r.1, hold + (r.2 + r.3), tail, ok);
    ProgressThen(r.0, r.1 + (hold + (r.2 + r.3)), r.1 + tail, ok);
    Regroup(r.0, r.1, hold, r.2, d4);
    ReplayAfterTwoMoves(cfg, m, cfg.leftCh, cfg.leftPress, cfg.rightCh, cfg.rightPress, tail);
    ReplayAppend(m2, hold, r.2 + d4);
    ReplaySleep(m2, cfg.pressHold);
    ReplayAfterMove(cfg, m2, cfg.leftCh, cfg.leftRest, d4);
  }

  /** Regrouping five parts of a log. */
  lemma Regroup(a: seq<Event>, b: seq<Event>, c: seq<Event>, d: seq<Event>, e: seq<Event>)
    ensures a + b + c + d + e == a + (b + (c + (d + e)))
  {
    AppendAssoc(a + b + c, d, e);
    AppendAssoc(a + b, c, d + e);
    AppendAssoc(a, b, c + (d + e));
  }

  // ---------------------------------------------------------------------------------------------
  // Properties of the sequencer

  predicate Between(x: real, a: real, b: real)
  {
    (a <= x <= b) || (b <= x <= a)
  }

  /** `move_smooth` on an untracked channel, or on one already at the target, is one write of the target. */
  lemma MoveSingleWrite(cfg: Config, m: map<int, real>, ch: int, target: real)
    requires cfg.freqHz != 0
    requires ch !in m || m[ch] == target
    ensures MoveTrace(cfg, m, ch, target) == [WriteOf(cfg, ch, target)]
  {
  }

  /** With a non-positive step size the loop guard never holds, so every move is one jump to the target. */
  lemma MoveNonPositiveStep(cfg: Config, m: map<int, real>, ch: int, target: real)
    requires cfg.freqHz != 0 && cfg.stepDeg <= 0.0
    ensures MoveTrace(cfg, m, ch, target) == [WriteOf(cfg, ch, target)]
  {
    var start := StartAngle(m, ch, target);
    assert !Continues(start, target, StepOf(cfg.stepDeg, start, target));
  }

  /** A tracked channel away from the target with a positive step: the loop writes start,
      start +- step, ..., each strictly on the start side of the target, first at the start itself,
      and stops at the first angle that would reach the target; the move then ends with one write of
      the target. */
  lemma MoveRamp(cfg: Config, m: map<int, real>, ch: int, target: real)
    requires cfg.freqHz != 0 && cfg.stepDeg > 0.0
    requires ch in m && m[ch] != target
    ensures var start, mids := m[ch], MoveAngles(m, ch, target, cfg.stepDeg);
      var step := if target > start then cfg.stepDeg else -cfg.stepDeg;
      && |mids| > 0 && mids[0] == start
      && (forall i :: 0 <= i < |mids| - 1 ==> mids[i + 1] == mids[i] + step)
      && (start < target ==> (forall x :: x in mids ==> start <= x < target) && target <= mids[|mids| - 1] + step)
      && (target < start ==> (forall x :: x in mids ==> target < x <= start) && mids[|mids| - 1] + step <= target)
  {
    var start := m[ch];
    var step := StepOf(cfg.stepDeg, start, target);
    RampShape(start, target, step);
  }

  /** Every move ends with exactly one write of the exact target. */
  lemma MoveEndsAtTarget(cfg: Config, m: map<int, real>, ch: int, target: real)
    requires cfg.freqHz != 0
    ensures |MoveTrace(cfg, m, ch, target)| > 0
    ensures MoveTrace(cfg, m, ch, target)[|MoveTrace(cfg, m, ch, target)| - 1] == WriteOf(cfg, ch, target)
  {
  }

  /** The default left release ramp (LEFT_PRESS 40 back to LEFT_REST 90, STEP_DEG 2): the loop
      writes 40, 42, ..., 88 (25 angles); the move then ends with one write of exactly 90
      (MoveEndsAtTarget). */
  lemma MoveFortyToNinety(m: map<int, real>, ch: int, stepDeg: real)
    requires stepDeg == 2.0
    requires ch in m && m[ch] == 40.0
    ensures MoveAngles(m, ch, 90.0, stepDeg) == seq(25, i => 40.0 + 2.0 * (i as real))
  {
    var mids := Ramp(m[ch], 90.0, stepDeg);
    assert MoveAngles(m, ch, 90.0, stepDeg) == mids;
    RampShape(m[ch], 90.0, stepDeg);
    FortyToNinetyCount(mids);
  }

  /** The arithmetic behind the example: a sequence that starts at 40, climbs by 2, stays below 90
      and whose next element would reach 90 has 25 elements 40, 42, ..., 88. */
  lemma FortyToNinetyCount(mids: seq<real>)
    requires |mids| > 0 && mids[0] == 40.0
    requires forall i :: 0 <= i < |mids| - 1 ==> mids[i + 1] == mids[i] + 2.0
    requires forall x :: x in mids ==> Continues(x, 90.0, 2.0)
    requires !Continues(mids[|mids| - 1] + 2.0, 90.0, 2.0)
    ensures mids == seq(25, i => 40.0 + 2.0 * (i as real))
  {
    var n := |mids|;
    forall i | 0 <= i < n ensures mids[i] == 40.0 + (i as real) * 2.0 {
      ArithmeticAt(mids, 40.0, 2.0, i);
    }
    assert mids[n - 1] in mids;
    assert n == 25;
  }

  /** No overshoot: every write of a move goes to `ch` at an angle between the start and the target;
      under an ordered pulse range and a positive frequency its duty value lies between the duty
      values of the start and of the target. Every sleep of a move is the step delay. */
  lemma MoveNoOvershoot(cfg: Config, m: map<int, real>, ch: int, target: real)
    requires cfg.freqHz != 0
    ensures var start, t := StartAngle(m, ch, target), MoveTrace(cfg, m, ch, target);
      forall i :: 0 <= i < |t| ==>
        (t[i].Write? ==>
           (t[i].ch == ch && Between(t[i].angle, start, target)
            && (cfg.freqHz > 0 && cfg.minUs <= cfg.maxUs ==>
                  Between(t[i].duty as real, AngleToDuty(cfg, start) as real, AngleToDuty(cfg, target) as real))))
        && (t[i].Sleep? ==> t[i].seconds == cfg.stepDelay)
        && !t[i].Release?
  {
    var start, t := StartAngle(m, ch, target), MoveTrace(cfg, m, ch, target);
    forall i | 0 <= i < |t|
      ensures (t[i].Write? ==>
           (t[i].ch == ch && Between(t[i].angle, start, target)
            && (cfg.freqHz > 0 && cfg.minUs <= cfg.maxUs ==>
                  Between(t[i].duty as real, AngleToDuty(cfg, start) as real, AngleToDuty(cfg, target) as real))))
        && (t[i].Sleep? ==> t[i].seconds == cfg.stepDelay)
        && !t[i].Release?
    {
      MoveEventAt(cfg, m, ch, target, i);
      if t[i].Write? && cfg.freqHz > 0 && cfg.minUs <= cfg.maxUs {
        DutyBetween(cfg, start, t[i].angle, target);
      }
    }
  }

  /** One event of a move: a write of an angle between the start and the target, or a sleep of
      `STEP_DELAY`. */
  lemma MoveEventAt(cfg: Config, m: map<int, real>, ch: int, target: real, i: int)
    requires cfg.freqHz != 0 && 0 <= i < |MoveTrace(cfg, m, ch, target)|
    ensures var start, t := StartAngle(m, ch, target), MoveTrace(cfg, m, ch, target);
      (t[i].Write? ==> t[i] == WriteOf(cfg, ch, t[i].angle) && Between(t[i].angle, start, target))
      && (t[i].Sleep? ==> t[i].seconds == cfg.stepDelay)
      && !t[i].Release?
  {
    var mids := MoveAngles(m, ch, target, cfg.stepDeg);
    var steps := StepTrace(cfg, ch, mids);
    var t := steps + [WriteOf(cfg, ch, target)];
    assert t == MoveTrace(cfg, m, ch, target);
    if i < |steps| {
      assert t[i] == steps[i];
      StepTraceEvent(cfg, ch, mids, i);
      if steps[i].Write? {
        MoveAnglesBetween(m, ch, target, cfg.stepDeg, steps[i].angle);
      }
    }
  }

  /** Each event of a step trace is a write of one of its angles or a sleep of `STEP_DELAY`. */
  lemma {:induction false} StepTraceEvent(cfg: Config, ch: int, mids: seq<real>, i: int)
    requires cfg.freqHz != 0 && 0 <= i < |StepTrace(cfg, ch, mids)|
    decreases |mids|
    ensures var e := StepTrace(cfg, ch, mids)[i];
      (e.Write? ==> e == WriteOf(cfg, ch, e.angle) && e.angle in mids)
      && (e.Sleep? ==> e.seconds == cfg.stepDelay)
      && !e.Release?
  {
    assert mids != [];
    var rest := StepTrace(cfg, ch, mids[1..]);
    assert StepTrace(cfg, ch, mids) == [WriteOf(cfg, ch, mids[0]), Sleep(cfg.stepDelay)] + rest;
    if i >= 2 {
      StepTraceEvent(cfg, ch, mids[1..], i - 2);
      assert StepTrace(cfg, ch, mids)[i] == rest[i - 2];
      assert forall x :: x in mids[1..] ==> x in mids;
    }
  }

  /** Every loop angle of a move lies between the start and the target. */
  lemma MoveAnglesBetween(m: map<int, real>, ch: int, target: real, stepDeg: real, x: real)
    requires x in MoveAngles(m, ch, target, stepDeg)
    ensures Between(x, StartAngle(m, ch, target), target)
  {
    var start := StartAngle(m, ch, target);
    RampShape(start, target, StepOf(stepDeg, start, target));
  }

  /** The duty of an angle between two others lies between their duties. */
  lemma DutyBetween(cfg: Config, start: real, a: real, target: real)
    requires cfg.freqHz > 0 && cfg.minUs <= cfg.maxUs && Between(a, start, target)
    ensures Between(AngleToDuty(cfg, a) as real, AngleToDuty(cfg, start) as real, AngleToDuty(cfg, target) as real)
  {
    if start <= a <= target {
      AngleToDutyMonotone(cfg, start, a);
      AngleToDutyMonotone(cfg, a, target);
    } else {
      AngleToDutyMonotone(cfg, target, a);
      AngleToDutyMonotone(cfg, a, start);
    }
  }

  /** `press_once` leaves the channel tracked at the rest angle and every other channel as it was. */
  lemma PressOnceTracks(cfg: Config, m: map<int, real>, ch: int, rest: real, press: real)
    requires cfg.freqHz != 0
    ensures Replay(m, PressOnceTrace(cfg, m, ch, rest, press)) == m[ch := rest]
  {
    var t1, t2 := MoveTrace(cfg, m, ch, press), MoveTrace(cfg, m[ch := press], ch, rest);
    MoveTracks(cfg, m, ch, press);
    MoveTracks(cfg, m[ch := press], ch, rest);
    ReplayAppend(m, t1, [Sleep(cfg.pressHold)] + t2);
    ReplayAppend(m[ch := press], [Sleep(cfg.pressHold)], t2);
    assert [Sleep(cfg.pressHold)][1..] == [];
    assert t1 + [Sleep(cfg.pressHold)] + t2 == t1 + ([Sleep(cfg.pressHold)] + t2);
    assert m[ch := press][ch := rest] == m[ch := rest];
  }

  /** With a positive step and press != rest, the return ramp starts from the press angle: the press
      angle is written, held, and written once more before the servo moves back. */
  lemma PressOnceRewritesPress(cfg: Config, m: map<int, real>, ch: int, rest: real, press: real)
    requires cfg.freqHz != 0 && cfg.stepDeg > 0.0 && press != rest
    ensures var t1, t := MoveTrace(cfg, m, ch, press), PressOnceTrace(cfg, m, ch, rest, press);
      t[|t1| - 1] == WriteOf(cfg, ch, press) && t[|t1|] == Sleep(cfg.pressHold) && t[|t1| + 1] == WriteOf(cfg, ch, press)
  {
    var m' := m[ch := press];
    MoveRamp(cfg, m', ch, rest);
    StepTraceAt(cfg, ch, MoveAngles(m', ch, rest, cfg.stepDeg));
  }

  /** A move of `ch` depends on the tracked angles only through the tracked angle of `ch`. */
  lemma MoveTraceLocal(cfg: Config, m: map<int, real>, m': map<int, real>, ch: int, target: real)
    requires cfg.freqHz != 0
    requires (ch in m <==> ch in m') && (ch in m ==> m[ch] == m'[ch])
    ensures MoveTrace(cfg, m, ch, target) == MoveTrace(cfg, m', ch, target)
  {
    assert StartAngle(m, ch, target) == StartAngle(m', ch, target);
  }

  /** On two distinct channels, `press_both` is exactly the two `press_once` cycles interleaved:
      left press ramp, right press ramp, one shared hold, left release ramp, right release ramp,
      each channel ramping exactly as it would on its own. */
  lemma PressBothInterleaves(cfg: Config, m: map<int, real>)
    requires cfg.freqHz != 0 && cfg.leftCh != cfg.rightCh
    ensures var hold := [Sleep(cfg.pressHold)];
      var lp, ll := MoveTrace(cfg, m, cfg.leftCh, cfg.leftPress), MoveTrace(cfg, m[cfg.leftCh := cfg.leftPress], cfg.leftCh, cfg.leftRest);
      var rp, rr := MoveTrace(cfg, m, cfg.rightCh, cfg.rightPress), MoveTrace(cfg, m[cfg.rightCh := cfg.rightPress], cfg.rightCh, cfg.rightRest);
      && PressOnceTrace(cfg, m, cfg.leftCh, cfg.leftRest, cfg.leftPress) == lp + hold + ll
      && PressOnceTrace(cfg, m, cfg.rightCh, cfg.rightRest, cfg.rightPress) == rp + hold + rr
      && PressBothTrace(cfg, m) == lp + rp + hold + ll + rr
  {
    var m1 := m[cfg.leftCh := cfg.leftPress];
    var m2 := m1[cfg.rightCh := cfg.rightPress];
    var m3 := m2[cfg.leftCh := cfg.leftRest];
    MoveTraceLocal(cfg, m1, m, cfg.rightCh, cfg.rightPress);
    MoveTraceLocal(cfg, m2, m[cfg.leftCh := cfg.leftPress], cfg.leftCh, cfg.leftRest);
    MoveTraceLocal(cfg, m3, m[cfg.rightCh := cfg.rightPress], cfg.rightCh, cfg.rightRest);
  }

  /** Replaying a complete move and then anything else is replaying the rest from the moved state. */
  lemma ReplayAfterMove(cfg: Config, m: map<int, real>, ch: int, target: real, rest: seq<Event>)
    requires cfg.freqHz != 0
    ensures Replay(m, MoveTrace(cfg, m, ch, target) + rest) == Replay(m[ch := target], rest)
  {
    ReplayAppend(m, MoveTrace(cfg, m, ch, target), rest);
    MoveTracks(cfg, m, ch, target);
  }

  /** Two complete moves in a row, then anything else. */
  lemma ReplayAfterTwoMoves(cfg: Config, m: map<int, real>, c1: int, x1: real, c2: int, x2: real, rest: seq<Event>)
    requires cfg.freqHz != 0
    ensures Replay(m, MoveTrace(cfg, m, c1, x1) + (MoveTrace(cfg, m[c1 := x1], c2, x2) + rest))
      == Replay(m[c1 := x1][c2 := x2], rest)
  {
    ReplayAfterMove(cfg, m, c1, x1, MoveTrace(cfg, m[c1 := x1], c2, x2) + rest);
    ReplayAfterMove(cfg, m[c1 := x1], c2, x2, rest);
  }

  /** `press_both` leaves both channels tracked at their rest angles. */
  lemma PressBothTracks(cfg: Config, m: map<int, real>)
    requires cfg.freqHz != 0
    ensures Replay(m, PressBothTrace(cfg, m)) == m[cfg.leftCh := cfg.leftRest][cfg.rightCh := cfg.rightRest]
  {
    var m1 := m[cfg.leftCh := cfg.leftPress];
    var m2 := m1[cfg.rightCh := cfg.rightPress];
    var m3 := m2[cfg.leftCh := cfg.leftRest];
    var t1, t2 := MoveTrace(cfg, m, cfg.leftCh, cfg.leftPress), MoveTrace(cfg, m1, cfg.rightCh, cfg.rightPress);
    var h := Sleep(cfg.pressHold);
    var t3, t4 := MoveTrace(cfg, m2, cfg.leftCh, cfg.leftRest), MoveTrace(cfg, m3, cfg.rightCh, cfg.rightRest);
    var back := t3 + t4;
    ReplayAfterTwoMoves(cfg, m, cfg.leftCh, cfg.leftPress, cfg.rightCh, cfg.rightPress, [h] + back);
    ReplayAppend(m2, [h], back);
    ReplayOne(m2, h);
    assert back == t3 + (t4 + []);
    ReplayAfterTwoMoves(cfg, m2, cfg.leftCh, cfg.leftRest, cfg.rightCh, cfg.rightRest, []);
    Overwrite(m, cfg.leftCh, cfg.rightCh, cfg.leftPress, cfg.rightPress, cfg.leftRest, cfg.rightRest);
  }

  /** Writing both channels again overrides what the first pair of writes recorded. */
  lemma Overwrite(m: map<int, real>, l: int, r: int, lx: real, rx: real, ly: real, ry: real)
    ensures m[l := lx][r := rx][l := ly][r := ry] == m[l := ly][r := ry]
  {
  }

  /** The rest writes seed exactly the tracked angles of a fresh controller. */
  lemma RestTraceSeeds(cfg: Config, m: map<int, real>)
    requires cfg.freqHz != 0
    ensures Replay(map[], RestTrace(cfg)) == SeedAngles(cfg)
    ensures Replay(m, RestTrace(cfg)) == m[cfg.leftCh := cfg.leftRest][cfg.rightCh := cfg.rightRest]
  {
    var w1, w2 := WriteOf(cfg, cfg.leftCh, cfg.leftRest), WriteOf(cfg, cfg.rightCh, cfg.rightRest);
    assert RestTrace(cfg) == [w1] + [w2];
    ReplayAppend(m, [w1], [w2]);
    ReplayOne(m, w1);
    ReplayOne(Apply(m, w1), w2);
    ReplayAppend(map[], [w1], [w2]);
    ReplayOne(map[], w1);
    ReplayOne(Apply(map[], w1), w2);
  }

  /** With a positive step and distinct channels, the first `press_left` of a freshly seeded
      controller starts by writing the left rest angle. */
  lemma FreshPressRampsFromRest(cfg: Config)
    requires cfg.freqHz != 0 && cfg.stepDeg > 0.0
    requires cfg.leftCh != cfg.rightCh
    ensures PressOnceTrace(cfg, SeedAngles(cfg), cfg.leftCh, cfg.leftRest, cfg.leftPress)[0]
      == WriteOf(cfg, cfg.leftCh, cfg.leftRest)
  {
    var m := SeedAngles(cfg);
    assert m[cfg.leftCh] == cfg.leftRest;
    if cfg.leftPress != cfg.leftRest {
      MoveRamp(cfg, m, cfg.leftCh, cfg.leftPress);
      StepTraceAt(cfg, cfg.leftCh, MoveAngles(m, cfg.leftCh, cfg.leftPress, cfg.stepDeg));
    }
  }

  /** A negative `PRESS_HOLD` is refused by `time.sleep`: no run of `press_once` succeeds. */
  lemma NegativeHoldFailsOnce(cfg: Config, m: map<int, real>, ch: int, rest: real, press: real, done: seq<Event>, ok: bool)
    requires cfg.freqHz != 0 && cfg.pressHold < 0.0
    requires Progress(PressOnceTrace(cfg, m, ch, rest, press), done, ok)
    ensures !ok
  {
    var t1 := MoveTrace(cfg, m, ch, press);
    assert PressOnceTrace(cfg, m, ch, rest, press)[|t1|] == Sleep(cfg.pressHold);
    RefusedFails(PressOnceTrace(cfg, m, ch, rest, press), done, ok, |t1|);
  }

  /** A negative `PRESS_HOLD` is refused by `time.sleep`: no run of `press_both` succeeds. */
  lemma NegativeHoldFailsBoth(cfg: Config, m: map<int, real>, done: seq<Event>, ok: bool)
    requires cfg.freqHz != 0 && cfg.pressHold < 0.0
    requires Progress(PressBothTrace(cfg, m), done, ok)
    ensures !ok
  {
    var r := BothRamps(cfg, m);
    var i := |r.0| + |r.1|;
    assert PressBothTrace(cfg, m)[i] == Sleep(cfg.pressHold);
    RefusedFails(PressBothTrace(cfg, m), done, ok, i);
  }

  /** A negative `STEP_DELAY` is refused by `time.sleep` after the first loop angle: no move that
      ramps succeeds, while a move that is one write of its target is unaffected. */
  lemma NegativeDelayFailsRamp(cfg: Config, m: map<int, real>, ch: int, target: real, done: seq<Event>, ok: bool)
    requires cfg.freqHz != 0 && cfg.stepDelay < 0.0
    requires MoveAngles(m, ch, target, cfg.stepDeg) != []
    requires Progress(MoveTrace(cfg, m, ch, target), done, ok)
    ensures !ok
  {
    var mids := MoveAngles(m, ch, target, cfg.stepDeg);
    StepTraceAt(cfg, ch, mids);
    assert MoveTrace(cfg, m, ch, target)[1] == StepTrace(cfg, ch, mids)[2 * 0 + 1];
    RefusedFails(MoveTrace(cfg, m, ch, target), done, ok, 1);
  }

  /** Closing only ever drives the configured channels to their rest angles, left before right, and
      releases the chip at most once, as its last action. */
  lemma CloseOnlyRests(cfg: Config, s: seq<Event>)
    requires cfg.freqHz != 0 && IsCloseTrace(cfg, s)
    ensures |s| <= 3
    ensures forall i :: 0 <= i < |s| ==>
      (s[i].Write? ==> (i == 0 && s[i] == WriteOf(cfg, cfg.leftCh, cfg.leftRest))
                       || (i == 1 && s[i] == WriteOf(cfg, cfg.rightCh, cfg.rightRest)))
      && (s[i] == Release ==> i == |s| - 1)
      && !s[i].Sleep?
  {
  }
}
