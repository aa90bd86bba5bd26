/**
 * The input classifiers of input_manager.py: the rotary-knob and button
 * debouncer, and the accelerometer classifier that turns samples into
 * left / right / shake events. Clock readings, encoder reports, button
 * levels and acceleration samples are parameters.
 */
module Inputs {
  import opened Wrappers

  // ---------------------------------------------------------------------
  // Knob and button
  // ---------------------------------------------------------------------

  datatype KnobEvent = Turn(direction: int) | Press

  /** The debouncer's clocks and the last button level (true = released, the line is pulled up). */
  datatype KnobState = KnobState(lastEncoderTime: real, lastButtonState: bool, lastButtonTime: real)

  /**
   * One poll of the knob at time `now`: `changed` and `delta` are what the
   * encoder driver reports, `button` is the button line's level.
   */
  function KnobStep(encoderCd: real, buttonCd: real, s: KnobState,
                    now: real, changed: bool, delta: int, button: bool): (r: (KnobState, Option<KnobEvent>))
    ensures r.1.Some? && r.1.value.Turn? <==> changed && now - s.lastEncoderTime > encoderCd && delta != 0
    ensures r.1 == Some(Turn(1)) <==> changed && now - s.lastEncoderTime > encoderCd && delta > 0
    ensures r.1 == Some(Turn(-1)) <==> changed && now - s.lastEncoderTime > encoderCd && delta < 0
    ensures r.0.lastEncoderTime == (if r.1.Some? && r.1.value.Turn? then now else s.lastEncoderTime)
    ensures r.1.Some? && r.1.value.Turn? ==> r.0.lastButtonState == s.lastButtonState && r.0.lastButtonTime == s.lastButtonTime
    ensures !(r.1.Some? && r.1.value.Turn?) ==>
      r.0.lastButtonState == button &&
      r.0.lastButtonTime == (if button != s.lastButtonState then now else s.lastButtonTime)
    ensures r.1 == Some(Press) <==>
      !(changed && now - s.lastEncoderTime > encoderCd && delta != 0) && !button && now - r.0.lastButtonTime > buttonCd
  {
    if changed && now - s.lastEncoderTime > encoderCd && delta != 0 then
      (s.(lastEncoderTime := now), Some(if delta > 0 then Turn(1) else Turn(-1)))
    else
      var s' := if button != s.lastButtonState then s.(lastButtonTime := now, lastButtonState := button) else s;
      if !button && now - s'.lastButtonTime > buttonCd then (s', Some(Press))
      else (s', None)
  }

  /**
   * A press is never reported on the poll that sees the button go down,
   * and it is reported again on every later poll while the button stays
   * down, once the cooldown has passed (the press repeats while held).
   */
  lemma PressRepeatsWhileHeld(encoderCd: real, buttonCd: real, s: KnobState, now: real, later: real)
    requires buttonCd >= 0.0 && s.lastButtonState && now <= later
    requires later - now > buttonCd
    ensures KnobStep(encoderCd, buttonCd, s, now, false, 0, false).1 == None
    ensures var s1 := KnobStep(encoderCd, buttonCd, s, now, false, 0, false).0;
            KnobStep(encoderCd, buttonCd, s1, later, false, 0, false).1 == Some(Press) &&
            KnobStep(encoderCd, buttonCd, s1, later, false, 0, false).0 == s1
  {
  }

  class KnobController {
    const encoderCd: real
    const buttonCd: real
    var lastEncoderTime: real
    var lastButtonState: bool
    var lastButtonTime: real

    function State(): KnobState
      reads this
    {
      KnobState(lastEncoderTime, lastButtonState, lastButtonTime)
    }

    /** `button` is the level read from the button line at construction. */
    constructor (button: bool, encoderCd: real := 0.3)
      ensures this.encoderCd == encoderCd && buttonCd == 0.3
      ensures State() == KnobState(0.0, button, 0.0)
    {
      this.encoderCd := encoderCd;
      lastEncoderTime := 0.0;
      lastButtonState := button;
      lastButtonTime := 0.0;
      buttonCd := 0.3;
    }

    /** Returns at most one event: a turn, checked first, or a press. */
    method Check(now: real, changed: bool, delta: int, button: bool) returns (ev: Option<KnobEvent>)
      modifies this
      ensures (State(), ev) == KnobStep(encoderCd, buttonCd, old(State()), now, changed, delta, button)
    {
      if changed && now - lastEncoderTime > encoderCd {
        if delta != 0 {
          lastEncoderTime := now;
          if delta > 0 {
            return Some(Turn(1));
          } else {
            return Some(Turn(-1));
          }
        }
      }
      var currentButton := button;
      if currentButton != lastButtonState {
        lastButtonTime := now;
        lastButtonState := currentButton;
      }
      if !currentButton {
        if now - lastButtonTime > buttonCd {
          return Some(Press);
        }
      }
      return None;
    }
  }

  // ---------------------------------------------------------------------
  // Accelerometer
  // ---------------------------------------------------------------------

  datatype Vec3 = Vec3(x: real, y: real, z: real)

  function Add(a: Vec3, b: Vec3): Vec3 {
    Vec3(a.x + b.x, a.y + b.y, a.z + b.z)
  }

  /** Component-wise sum of the readings. */
  function SumOf(rs: seq<Vec3>): Vec3 {
    if rs == [] then Vec3(0.0, 0.0, 0.0) else Add(SumOf(rs[..|rs| - 1]), rs[|rs| - 1])
  }

  /** Component-wise mean of the readings. */
  function MeanOf(rs: seq<Vec3>): Vec3
    requires |rs| > 0
  {
    var s := SumOf(rs);
    Vec3(s.x / |rs| as real, s.y / |rs| as real, s.z / |rs| as real)
  }

  /**
   * The calibration baseline: the mean of the readings taken while the
   * device rests (one reading per sample).
   */
  method Calibrate(readings: seq<Vec3>) returns (baseline: Vec3)
    requires |readings| > 0
    ensures baseline == MeanOf(readings)
  {
    var sumX, sumY, sumZ := 0.0, 0.0, 0.0;
    var i := 0;
    while i < |readings|
      invariant 0 <= i <= |readings|
      invariant Vec3(sumX, sumY, sumZ) == SumOf(readings[..i])
    {
      assert readings[..i + 1][..i] == readings[..i];
      sumX := sumX + readings[i].x;
      sumY := sumY + readings[i].y;
      sumZ := sumZ + readings[i].z;
      i := i + 1;
    }
    assert readings[..i] == readings;
    var n := |readings| as real;
    baseline := Vec3(sumX / n, sumY / n, sumZ / n);
  }

  lemma {:induction false} SumOfConstant(rs: seq<Vec3>, v: Vec3)
    requires forall i :: 0 <= i < |rs| ==> rs[i] == v
    ensures SumOf(rs) == Vec3(|rs| as real * v.x, |rs| as real * v.y, |rs| as real * v.z)
  {
    if rs != [] {
      SumOfConstant(rs[..|rs| - 1], v);
    }
  }

  /** A device that reads the same value throughout calibration gets that value as its baseline. */
  lemma MeanOfConstant(rs: seq<Vec3>, v: Vec3)
    requires |rs| > 0 && forall i :: 0 <= i < |rs| ==> rs[i] == v
    ensures MeanOf(rs) == v
  {
    SumOfConstant(rs, v);
  }

  lemma {:induction false} SumOfBounds(rs: seq<Vec3>, lo: real, hi: real)
    requires forall i :: 0 <= i < |rs| ==> lo <= rs[i].x <= hi
    ensures |rs| as real * lo <= SumOf(rs).x <= |rs| as real * hi
  {
    if rs != [] {
      SumOfBounds(rs[..|rs| - 1], lo, hi);
    }
  }

  /** The baseline lies within the range of the readings (x axis; the others are alike). */
  lemma MeanWithinReadings(rs: seq<Vec3>, lo: real, hi: real)
    requires |rs| > 0 && forall i :: 0 <= i < |rs| ==> lo <= rs[i].x <= hi
    ensures lo <= MeanOf(rs).x <= hi
  {
    SumOfBounds(rs, lo, hi);
    QuotientBounds(SumOf(rs).x, |rs| as real, lo, hi);
  }

  lemma QuotientBounds(s: real, n: real, lo: real, hi: real)
    requires n > 0.0 && n * lo <= s <= n * hi
    ensures lo <= s / n <= hi
  {
  }

  /** Thresholds and smoothing factor of the classifier. */
  datatype MotionConfig = MotionConfig(alpha: real, tiltThreshold: real, laneCd: real, shakeDelta: real, shakeFrames: int)

  /** The classifier's state: filtered values, previous filtered values, baseline, shake run, lane clock. */
  datatype MotionState = MotionState(f: Vec3, prev: Vec3, baseline: Vec3, shakeCounter: int, lastLaneChange: real)

  datatype Tilt = Tilt(left: bool, right: bool, shake: bool)

  function Abs(r: real): real {
    if r < 0.0 then -r else r
  }

  function Max3(a: real, b: real, c: real): real {
    if a >= b && a >= c then a else if b >= c then b else c
  }

  /** Exponential smoothing: `alpha * x + (1 - alpha) * f`. */
  function Smooth(alpha: real, x: real, f: real): real {
    alpha * x + (1.0 - alpha) * f
  }

  /** The filtered values after one raw sample. */
  function Filtered(cfg: MotionConfig, s: MotionState, raw: Vec3): Vec3 {
    Vec3(Smooth(cfg.alpha, raw.x - s.baseline.x, s.f.x),
         Smooth(cfg.alpha, raw.y - s.baseline.y, s.f.y),
         Smooth(cfg.alpha, raw.z - s.baseline.z, s.f.z))
  }

  /** Whether the largest per-axis change of the filtered values exceeds the shake threshold. */
  predicate Exceeds(cfg: MotionConfig, s: MotionState, raw: Vec3) {
    var f := Filtered(cfg, s, raw);
    Max3(Abs(f.x - s.prev.x), Abs(f.y - s.prev.y), Abs(f.z - s.prev.z)) > cfg.shakeDelta
  }

  /** One update: `raw` is the sample, `t` the clock read for the lane test. */
  function MotionStep(cfg: MotionConfig, s: MotionState, raw: Vec3, t: real): (r: (MotionState, Tilt))
    ensures r.0.f == Filtered(cfg, s, raw) && r.0.prev == r.0.f && r.0.baseline == s.baseline
    ensures !(r.1.left && r.1.right) && !(r.1.left && r.1.shake) && !(r.1.right && r.1.shake)
    ensures r.1.shake <==> (if Exceeds(cfg, s, raw) then s.shakeCounter + 1 else 0) >= cfg.shakeFrames
    ensures r.1.shake ==> r.0.shakeCounter == 0 && r.0.lastLaneChange == s.lastLaneChange
    ensures !r.1.shake ==> r.0.shakeCounter == if Exceeds(cfg, s, raw) then s.shakeCounter + 1 else 0
    ensures r.1.right ==> r.0.f.x > cfg.tiltThreshold && t - s.lastLaneChange > cfg.laneCd
    ensures r.1.left ==> r.0.f.x < -cfg.tiltThreshold && t - s.lastLaneChange > cfg.laneCd
    ensures r.0.lastLaneChange == if r.1.left || r.1.right then t else s.lastLaneChange
    ensures !r.1.shake && r.0.f.x > cfg.tiltThreshold && t - s.lastLaneChange > cfg.laneCd ==> r.1.right
    ensures (!r.1.shake && !(r.0.f.x > cfg.tiltThreshold) && r.0.f.x < -cfg.tiltThreshold &&
             t - s.lastLaneChange > cfg.laneCd) ==> r.1.left
  {
    var f := Filtered(cfg, s, raw);
    var counter := if Exceeds(cfg, s, raw) then s.shakeCounter + 1 else 0;
    var s1 := s.(f := f, prev := f, shakeCounter := counter);
    if counter >= cfg.shakeFrames then
      (s1.(shakeCounter := 0), Tilt(false, false, true))
    else if f.x > cfg.tiltThreshold && t - s.lastLaneChange > cfg.laneCd then
      (s1.(lastLaneChange := t), Tilt(false, true, false))
    else if f.x < -cfg.tiltThreshold && t - s.lastLaneChange > cfg.laneCd then
      (s1.(lastLaneChange := t), Tilt(true, false, false))
    else
      (s1, Tilt(false, false, false))
  }

  /** One tick of input: the raw sample and the clock read for the lane test. */
  datatype Reading = Reading(raw: Vec3, t: real)

  /** The states the classifier passes through on a run of readings, starting with `s`. */
  function States(cfg: MotionConfig, s: MotionState, rs: seq<Reading>): (ss: seq<MotionState>)
    ensures |ss| == |rs| + 1 && ss[0] == s
    decreases |rs|
  {
    if rs == [] then [s] else [s] + States(cfg, MotionStep(cfg, s, rs[0].raw, rs[0].t).0, rs[1..])
  }

  lemma {:induction false} StatesStep(cfg: MotionConfig, s: MotionState, rs: seq<Reading>, k: int)
    requires 0 <= k < |rs|
    ensures States(cfg, s, rs)[k + 1] == MotionStep(cfg, States(cfg, s, rs)[k], rs[k].raw, rs[k].t).0
    decreases k
  {
    if k > 0 {
      StatesStep(cfg, MotionStep(cfg, s, rs[0].raw, rs[0].t).0, rs[1..], k - 1);
    }
  }

  /** The events reported at tick k of a run. */
  function EventAt(cfg: MotionConfig, s: MotionState, rs: seq<Reading>, k: int): Tilt
    requires 0 <= k < |rs|
  {
    MotionStep(cfg, States(cfg, s, rs)[k], rs[k].raw, rs[k].t).1
  }

  /** Whether the sample at tick k of a run moved the filtered values by more than the shake threshold. */
  predicate ExceedsAt(cfg: MotionConfig, s: MotionState, rs: seq<Reading>, k: int)
    requires 0 <= k < |rs|
  {
    Exceeds(cfg, States(cfg, s, rs)[k], rs[k].raw)
  }

  predicate IsLane(e: Tilt) {
    e.left || e.right
  }

  /** The lane clock never goes back in time when the cooldown is not negative. */
  lemma {:induction false} LaneClockAdvances(cfg: MotionConfig, s: MotionState, rs: seq<Reading>, k: int)
    requires cfg.laneCd >= 0.0 && 0 <= k < |rs|
    ensures States(cfg, s, rs)[k].lastLaneChange >= s.lastLaneChange
    ensures IsLane(EventAt(cfg, s, rs, k)) ==> rs[k].t - s.lastLaneChange > cfg.laneCd
    decreases k
  {
    if k > 0 {
      LaneClockAdvances(cfg, s, rs, k - 1);
      StatesStep(cfg, s, rs, k - 1);
    }
  }

  /**
   * Lane changes are debounced: in any run of readings, two lane events are
   * separated by strictly more than the lane cooldown.
   */
  lemma LaneEventsSeparated(cfg: MotionConfig, s: MotionState, rs: seq<Reading>, i: int, j: int)
    requires cfg.laneCd >= 0.0 && 0 <= i < j < |rs|
    requires IsLane(EventAt(cfg, s, rs, i)) && IsLane(EventAt(cfg, s, rs, j))
    ensures rs[j].t - rs[i].t > cfg.laneCd
  {
    var ss := States(cfg, s, rs);
    StatesStep(cfg, s, rs, i);
    assert ss[i + 1].lastLaneChange == rs[i].t;
    LaneClockAdvances(cfg, ss[i + 1], rs[i + 1..], j - i - 1);
    StatesSuffix(cfg, s, rs, i + 1, j);
  }

  /** The run from tick m on is the run from the state reached at tick m. */
  lemma {:induction false} StatesSuffix(cfg: MotionConfig, s: MotionState, rs: seq<Reading>, m: int, k: int)
    requires 0 <= m <= k <= |rs|
    ensures States(cfg, States(cfg, s, rs)[m], rs[m..])[k - m] == States(cfg, s, rs)[k]
    ensures k < |rs| ==> EventAt(cfg, States(cfg, s, rs)[m], rs[m..], k - m) == EventAt(cfg, s, rs, k)
    decreases m
  {
    if m > 0 {
      var s1 := MotionStep(cfg, s, rs[0].raw, rs[0].t).0;
      assert States(cfg, s, rs) == [s] + States(cfg, s1, rs[1..]);
      StatesSuffix(cfg, s1, rs[1..], m - 1, k - 1);
      assert rs[1..][m - 1..] == rs[m..];
    }
  }

  /** The number of consecutive exceeding ticks that end just before tick k. */
  function RunBefore(cfg: MotionConfig, s: MotionState, rs: seq<Reading>, k: int): (n: int)
    requires 0 <= k <= |rs|
    ensures 0 <= n <= k
  {
    if k == 0 || !ExceedsAt(cfg, s, rs, k - 1) then 0 else 1 + RunBefore(cfg, s, rs, k - 1)
  }

  lemma {:induction false} RunBeforeMeans(cfg: MotionConfig, s: MotionState, rs: seq<Reading>, k: int, i: int)
    requires 0 <= k <= |rs| && k - RunBefore(cfg, s, rs, k) <= i < k
    ensures ExceedsAt(cfg, s, rs, i)
    decreases k
  {
    if i < k - 1 {
      RunBeforeMeans(cfg, s, rs, k - 1, i);
    }
  }

  /** Starting from an empty shake run, the counter never exceeds the current run of exceeding ticks. */
  lemma {:induction false} CounterWithinRun(cfg: MotionConfig, s: MotionState, rs: seq<Reading>, k: int)
    requires s.shakeCounter == 0 && 0 <= k <= |rs|
    ensures 0 <= States(cfg, s, rs)[k].shakeCounter <= RunBefore(cfg, s, rs, k)
    decreases k
  {
    if k > 0 {
      CounterWithinRun(cfg, s, rs, k - 1);
      StatesStep(cfg, s, rs, k - 1);
    }
  }

  /**
   * A shake needs `shakeFrames` consecutive ticks whose filtered change
   * exceeds the shake threshold, ending at the tick that reports it.
   */
  lemma ShakeNeedsConsecutiveFrames(cfg: MotionConfig, s: MotionState, rs: seq<Reading>, k: int, i: int)
    requires s.shakeCounter == 0 && cfg.shakeFrames >= 1 && 0 <= k < |rs|
    requires EventAt(cfg, s, rs, k).shake
    requires k + 1 - cfg.shakeFrames <= i <= k
    ensures k + 1 >= cfg.shakeFrames && ExceedsAt(cfg, s, rs, i)
  {
    CounterWithinRun(cfg, s, rs, k);
    assert RunBefore(cfg, s, rs, k + 1) == 1 + RunBefore(cfg, s, rs, k);
    RunBeforeMeans(cfg, s, rs, k + 1, i);
  }

  /** Along exceeding ticks without a shake the counter climbs by one per tick. */
  lemma {:induction false} CounterClimbs(cfg: MotionConfig, s: MotionState, rs: seq<Reading>, a: int, m: int)
    requires 0 <= a && 0 <= m && a + m <= |rs|
    requires forall i :: a <= i < a + m ==> ExceedsAt(cfg, s, rs, i) && !EventAt(cfg, s, rs, i).shake
    ensures States(cfg, s, rs)[a + m].shakeCounter == States(cfg, s, rs)[a].shakeCounter + m
    decreases m
  {
    if m > 0 {
      var k := a + m - 1;
      CounterClimbs(cfg, s, rs, a, m - 1);
      assert States(cfg, s, rs)[k + 1].shakeCounter == States(cfg, s, rs)[k].shakeCounter + 1 by {
        assert ExceedsAt(cfg, s, rs, k) && !EventAt(cfg, s, rs, k).shake;
        CounterStep(cfg, s, rs, k);
      }
    }
  }

  /** One exceeding tick without a shake raises the counter by one. */
  lemma CounterStep(cfg: MotionConfig, s: MotionState, rs: seq<Reading>, k: int)
    requires 0 <= k < |rs| && ExceedsAt(cfg, s, rs, k) && !EventAt(cfg, s, rs, k).shake
    ensures States(cfg, s, rs)[k + 1].shakeCounter == States(cfg, s, rs)[k].shakeCounter + 1
  {
    StatesStep(cfg, s, rs, k);
    var ss := States(cfg, s, rs);
    var r := MotionStep(cfg, ss[k], rs[k].raw, rs[k].t);
    assert Exceeds(cfg, ss[k], rs[k].raw) && !r.1.shake;
  }

  lemma {:induction false} CounterNonNegative(cfg: MotionConfig, s: MotionState, rs: seq<Reading>, k: int)
    requires s.shakeCounter >= 0 && 0 <= k <= |rs|
    ensures States(cfg, s, rs)[k].shakeCounter >= 0
    decreases k
  {
    if k > 0 {
      CounterNonNegative(cfg, s, rs, k - 1);
      StatesStep(cfg, s, rs, k - 1);
    }
  }

  /**
   * Conversely, `shakeFrames` consecutive exceeding ticks always produce a
   * shake at one of them.
   */
  lemma ConsecutiveFramesShake(cfg: MotionConfig, s: MotionState, rs: seq<Reading>, a: int)
    requires s.shakeCounter >= 0 && cfg.shakeFrames >= 1 && 0 <= a && a + cfg.shakeFrames <= |rs|
    requires forall i :: a <= i < a + cfg.shakeFrames ==> ExceedsAt(cfg, s, rs, i)
    ensures exists i :: a <= i < a + cfg.shakeFrames && EventAt(cfg, s, rs, i).shake
  {
    var last := a + cfg.shakeFrames - 1;
    if forall i :: a <= i < last ==> !EventAt(cfg, s, rs, i).shake {
      CounterClimbs(cfg, s, rs, a, cfg.shakeFrames - 1);
      CounterNonNegative(cfg, s, rs, a);
      var ss := States(cfg, s, rs);
      assert ss[last].shakeCounter >= cfg.shakeFrames - 1;
      assert ExceedsAt(cfg, s, rs, last);
      assert Exceeds(cfg, ss[last], rs[last].raw);
      assert EventAt(cfg, s, rs, last).shake;
    }
  }

  class Accelerator {
    const alpha: real
    const tiltThreshold: real
    const shakeDelta: real
    const shakeFrames: int
    const laneCd: real
    var fx: real
    var fy: real
    var fz: real
    var previousFx: real
    var previousFy: real
    var previousFz: real
    var shakeCounter: int
    var lastLaneChange: real
    var baselineX: real
    var baselineY: real
    var baselineZ: real

    function Config(): MotionConfig {
      MotionConfig(alpha, tiltThreshold, laneCd, shakeDelta, shakeFrames)
    }

    function State(): MotionState
      reads this
    {
      MotionState(Vec3(fx, fy, fz), Vec3(previousFx, previousFy, previousFz),
                  Vec3(baselineX, baselineY, baselineZ), shakeCounter, lastLaneChange)
    }

    /** `now` is the clock at construction; `readings` are the calibration samples. */
    constructor (readings: seq<Vec3>, now: real, tiltThreshold: real := 2.2, laneCd: real := 1.0,
                 shakeDelta: real := 2.5, shakeFrames: int := 2, alpha: real := 0.2)
      requires |readings| > 0
      ensures Config() == MotionConfig(alpha, tiltThreshold, laneCd, shakeDelta, shakeFrames)
      ensures State() == MotionState(Vec3(0.0, 0.0, 0.0), Vec3(0.0, 0.0, 0.0), MeanOf(readings), 0, now)
    {
      this.alpha := alpha;
      this.tiltThreshold := tiltThreshold;
      this.shakeDelta := shakeDelta;
      this.shakeFrames := shakeFrames;
      this.laneCd := laneCd;
      fx, fy, fz := 0.0, 0.0, 0.0;
      previousFx, previousFy, previousFz := 0.0, 0.0, 0.0;
      shakeCounter := 0;
      lastLaneChange := now;
      var b := Calibrate(readings);
      baselineX, baselineY, baselineZ := b.x, b.y, b.z;
    }

    /** Classifies one raw sample; `t` is the clock read for the lane cooldown. */
    method Update(raw: Vec3, t: real) returns (left: bool, right: bool, shake: bool)
      modifies this
      ensures (State(), Tilt(left, right, shake)) == MotionStep(Config(), old(State()), raw, t)
    {
      ghost var s0 := State();
      left, right, shake := false, false, false;
      var x := raw.x - baselineX;
      var y := raw.y - baselineY;
      var z := raw.z - baselineZ;
      fx := alpha * x + (1.0 - alpha) * fx;
      fy := alpha * y + (1.0 - alpha) * fy;
      fz := alpha * z + (1.0 - alpha) * fz;
      assert fx == Smooth(alpha, raw.x - s0.baseline.x, s0.f.x);
      assert fy == Smooth(alpha, raw.y - s0.baseline.y, s0.f.y);
      assert fz == Smooth(alpha, raw.z - s0.baseline.z, s0.f.z);
      var dx := Abs(fx - previousFx);
      var dy := Abs(fy - previousFy);
      var dz := Abs(fz - previousFz);
      var delta := Max3(dx, dy, dz);
      if delta > shakeDelta {
        shakeCounter := shakeCounter + 1;
      } else {
        shakeCounter := 0;
      }
      previousFx, previousFy, previousFz := fx, fy, fz;
      assert Vec3(fx, fy, fz) == Filtered(Config(), s0, raw);
      assert delta > shakeDelta <==> Exceeds(Config(), s0, raw);
      if shakeCounter >= shakeFrames {
        shake := true;
        shakeCounter := 0;
        return;
      }
      if fx > tiltThreshold && t - lastLaneChange > laneCd {
        right := true;
        lastLaneChange := t;
      } else if fx < -tiltThreshold && t - lastLaneChange > laneCd {
        left := true;
        lastLaneChange := t;
      }
    }
  }
}
