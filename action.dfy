/** Folding one control action into the bounded velocity, gain and shift
    set-points, and deriving the hidden effective shift
    (IndustrialBenchmarkDynamics.addAction). */
module ActionFolding {
  import opened Numeric

  /** Bound of the effective shift, GS_BOUND. */
  const GsBound: real := 1.5
  /** Setpoint coupling of the effective shift, GS_SET_POINT_DEPENDENCY. */
  const GsSetPointDependency: real := 0.02
  /** gsScale = 2*GS_BOUND + 100*GS_SET_POINT_DEPENDENCY, which is 5. */
  const GsScale: real := 2.0 * GsBound + 100.0 * GsSetPointDependency
  /** MAX_REQUIRED_STEP, the single-precision value of sin(15 degrees); only its
      positivity matters to the properties below. */
  const MaxRequiredStep: real := 0.25881904
  /** The derived per-step shift bound (MAX_REQUIRED_STEP/0.9)*100/gsScale. */
  const ShiftStep: real := (MaxRequiredStep / 0.9) * 100.0 / GsScale
  /** Shift is kept in [ShiftMin, ShiftMax]. */
  const ShiftMin: real := 0.0
  const ShiftMax: real := 100.0

  /** A delta action moves each set-point by delta*stepSize; an absolute
      action asks for target values (ActionAbsolute). */
  datatype Action =
    | Delta(deltaVelocity: real, deltaGain: real, deltaShift: real)
    | Absolute(velocity: real, gain: real, shift: real)

  /** Math.min(hi, Math.max(lo, x)). */
  function Clamp(x: real, lo: real, hi: real): (r: real)
    ensures lo <= hi ==> lo <= r <= hi
    ensures lo <= x <= hi ==> r == x
  {
    Min(hi, Max(lo, x))
  }

  /** The requested difference cut to [-step, step]. */
  function LimitStep(diff: real, step: real): (r: real)
    ensures step >= 0.0 ==> -step <= r <= step
    ensures -step <= diff <= step ==> r == diff
    ensures step >= 0.0 ==> (diff >= 0.0 ==> 0.0 <= r <= diff) && (diff <= 0.0 ==> diff <= r <= 0.0)
  {
    if diff > step then step else if diff < -step then -step else diff
  }

  /** New value of a set-point under a delta command. */
  function FoldDelta(v: real, delta: real, step: real, lo: real, hi: real): (r: real)
    ensures lo <= hi ==> lo <= r <= hi
    ensures lo <= v + delta * step <= hi ==> r == v + delta * step
  {
    Clamp(v + delta * step, lo, hi)
  }

  /** New value of a set-point under an absolute command: at most one step
      toward the target, then clamped to the bounds. Within the bounds the
      move never exceeds the step and never overshoots the target; a target
      within one step is reached exactly. */
  function FoldAbsolute(v: real, target: real, step: real, lo: real, hi: real): (r: real)
    ensures lo <= hi ==> lo <= r <= hi
    ensures lo <= v <= hi && step >= 0.0 ==> Abs(r - v) <= step
    ensures lo <= v <= hi && lo <= target <= hi && step >= 0.0 ==>
              (v <= target ==> v <= r <= target) && (target <= v ==> target <= r <= v)
    ensures lo <= target <= hi && Abs(target - v) <= step ==> r == target
  {
    Clamp(v + LimitStep(target - v, step), lo, hi)
  }

  /** The hidden effective shift the miscalibration model consumes: shift
      rescaled and offset by the setpoint, clamped to [-GS_BOUND, GS_BOUND].
      It is zero exactly at the neutral shift 30 + 0.4*setpoint. */
  function EffectiveShiftOf(shift: real, setPoint: real): (r: real)
    ensures -GsBound <= r <= GsBound
    ensures r == 0.0 <==> shift == 30.0 + 0.4 * setPoint
  {
    Clamp(GsScale * shift / 100.0 - GsSetPointDependency * setPoint - GsBound, -GsBound, GsBound)
  }

  /** The new velocity for an action: a delta fold or an absolute fold. */
  function NewVelocity(a: Action, v: real, step: real, lo: real, hi: real): real
  {
    match a
    case Delta(dv, _, _) => FoldDelta(v, dv, step, lo, hi)
    case Absolute(tv, _, _) => FoldAbsolute(v, tv, step, lo, hi)
  }

  /** The new gain for an action, folded as the velocity is. */
  function NewGain(a: Action, g: real, step: real, lo: real, hi: real): real
  {
    match a
    case Delta(_, dg, _) => FoldDelta(g, dg, step, lo, hi)
    case Absolute(_, tg, _) => FoldAbsolute(g, tg, step, lo, hi)
  }

  /** The new shift for an action, bounded by [0, 100] and
      rate-limited by ShiftStep. */
  function NewShift(a: Action, s: real): real
  {
    match a
    case Delta(_, _, ds) => FoldDelta(s, ds, ShiftStep, ShiftMin, ShiftMax)
    case Absolute(_, _, ts) => FoldAbsolute(s, ts, ShiftStep, ShiftMin, ShiftMax)
  }

  /** Velocity and gain, each with its own step size and bounds, end within
      those bounds for both kinds of action, and an absolute action moves a
      set-point that was within its bounds by at most its own step size. */
  lemma ActuatorBounds(a: Action, velocity: real, stepVelocity: real, loVelocity: real, hiVelocity: real,
                       gain: real, stepGain: real, loGain: real, hiGain: real)
    requires loVelocity <= hiVelocity && loGain <= hiGain
    ensures loVelocity <= NewVelocity(a, velocity, stepVelocity, loVelocity, hiVelocity) <= hiVelocity
    ensures loGain <= NewGain(a, gain, stepGain, loGain, hiGain) <= hiGain
    ensures a.Absolute? && loVelocity <= velocity <= hiVelocity && stepVelocity >= 0.0 ==>
              Abs(NewVelocity(a, velocity, stepVelocity, loVelocity, hiVelocity) - velocity) <= stepVelocity
    ensures a.Absolute? && loGain <= gain <= hiGain && stepGain >= 0.0 ==>
              Abs(NewGain(a, gain, stepGain, loGain, hiGain) - gain) <= stepGain
  {
  }

  /** Shift always ends in [0, 100]; from within that range an absolute action
      moves it by at most ShiftStep, whatever the target. */
  lemma ShiftBounds(a: Action, s: real)
    ensures ShiftMin <= NewShift(a, s) <= ShiftMax
    ensures a.Absolute? && ShiftMin <= s <= ShiftMax ==> Abs(NewShift(a, s) - s) <= ShiftStep
  {
  }

  /** The value after k identical delta commands. */
  function RepeatDelta(v: real, delta: real, step: real, lo: real, hi: real, k: nat): real
    decreases k
  {
    if k == 0 then v else RepeatDelta(FoldDelta(v, delta, step, lo, hi), delta, step, lo, hi, k - 1)
  }

  /** The value after k identical absolute commands toward one target. */
  function RepeatAbsolute(v: real, target: real, step: real, lo: real, hi: real, k: nat): real
    decreases k
  {
    if k == 0 then v else RepeatAbsolute(FoldAbsolute(v, target, step, lo, hi), target, step, lo, hi, k - 1)
  }

  /** Repeating the maximal delta command drives a set-point to its upper bound
      once k steps cover the distance, and keeps it there. */
  lemma {:induction false} MaximalDeltaReachesBound(v: real, step: real, lo: real, hi: real, k: nat)
    requires step > 0.0 && lo <= v <= hi
    requires (k as real) * step >= hi - v
    ensures RepeatDelta(v, 1.0, step, lo, hi, k) == hi
    decreases k
  {
    if k == 0 {
    } else {
      var v' := FoldDelta(v, 1.0, step, lo, hi);
      assert v' == Min(hi, v + step);
      assert ((k - 1) as real) * step == (k as real) * step - step;
      MaximalDeltaReachesBound(v', step, lo, hi, k - 1);
    }
  }

  /** Repeating an absolute command toward a target within the bounds reaches
      the target once k steps cover the distance, and then stays there. */
  lemma {:induction false} AbsoluteReachesTarget(v: real, target: real, step: real, lo: real, hi: real, k: nat)
    requires step > 0.0 && lo <= v <= hi && lo <= target <= hi
    requires (k as real) * step >= Abs(target - v)
    ensures RepeatAbsolute(v, target, step, lo, hi, k) == target
    decreases k
  {
    if k == 0 {
    } else {
      var v' := FoldAbsolute(v, target, step, lo, hi);
      assert Abs(target - v') == Max(0.0, Abs(target - v) - step);
      assert ((k - 1) as real) * step == (k as real) * step - step;
      AbsoluteReachesTarget(v', target, step, lo, hi, k - 1);
    }
  }

  /** The effective shift grows with the shift and falls with the setpoint. */
  lemma EffectiveShiftMonotone(s1: real, s2: real, p1: real, p2: real)
    requires s1 <= s2 && p2 <= p1
    ensures EffectiveShiftOf(s1, p1) <= EffectiveShiftOf(s2, p2)
  {
    assert GsScale == 5.0;
    ClampMonotone(GsScale * s1 / 100.0 - GsSetPointDependency * p1 - GsBound,
                  GsScale * s2 / 100.0 - GsSetPointDependency * p2 - GsBound, -GsBound, GsBound);
  }

  lemma ClampMonotone(x: real, y: real, lo: real, hi: real)
    requires x <= y
    ensures Clamp(x, lo, hi) <= Clamp(y, lo, hi)
  {
  }
}
