/** The spiking, regime-switching fatigue process
    (IndustrialBenchmarkDynamics.updateFatigue). Random draws, the logistic
    squashing of the exponential noise and the effective-action scalars are
    inputs: only the thresholds and the bookkeeping around them are modelled. */
module FatigueProcess {
  import opened Numeric

  const ActionTolerance: real := 0.05
  const FatigueAmplification: real := 1.1
  const FatigueAmplificationMax: real := 5.0
  const FatigueAmplificationStart: real := 1.2
  /** The Bernoulli spike probability is kept in [SpikeMin, SpikeMax]. */
  const SpikeMin: real := 0.001
  const SpikeMax: real := 0.999

  /** The random values one fatigue update consumes, in the order they are
      drawn: the two squashed exponential base noises, the uniform and the
      Bernoulli outcome of each spike, and the squashed Gaussian "bad" noise. */
  datatype FatigueDraws = FatigueDraws(
    baseNoiseGain: real, baseNoiseVelocity: real,
    uniformGain: real, hitGain: bool,
    uniformVelocity: real, hitVelocity: bool,
    badNoise: real)

  /** The ranges the samplers produce: 2*(logistic(x)-0.5) of an exponential
      sample lies in [0, 1), a uniform(0,1) sample in [0, 1], and a logistic
      of a Gaussian sample in (0, 1). */
  predicate DrawsInRange(d: FatigueDraws)
  {
    && 0.0 <= d.baseNoiseGain < 1.0 && 0.0 <= d.baseNoiseVelocity < 1.0
    && 0.0 <= d.uniformGain <= 1.0 && 0.0 <= d.uniformVelocity <= 1.0
    && 0.0 < d.badNoise < 1.0
  }

  /** The configured constants DGain, DVelocity, DSetPoint, DBase. */
  datatype FatigueConsts = FatigueConsts(dGain: real, dVelocity: real, dSetPoint: real, dBase: real)

  /** What one update writes back: Fatigue, FatigueBase, FatigueLatent1
      (velocity) and FatigueLatent2 (gain). */
  datatype FatigueUpdate = FatigueUpdate(fatigue: real, fatigueBase: real, latentVelocity: real, latentGain: real)

  /** The success probability handed to the Bernoulli sampler: the effective
      action clamped into the open interval the sampler accepts. The sampler
      itself is abstracted by the Bernoulli outcomes hitGain and hitVelocity
      of FatigueDraws, so this is the argument it would be given. */
  function SpikeProbability(e: real): (p: real)
    ensures SpikeMin <= p <= SpikeMax
    ensures SpikeMin <= e <= SpikeMax ==> p == e
  {
    Min(Max(SpikeMin, e), SpikeMax)
  }

  /** The base noise after a possible spike: on a Bernoulli success it is
      pulled toward 1 by uniform*e. It never leaves [base, 1]. */
  function SpikedNoise(base: real, uniform: real, hit: bool, e: real): (n: real)
    ensures !hit ==> n == base
    ensures 0.0 <= base <= 1.0 && 0.0 <= uniform <= 1.0 && 0.0 <= e <= 1.0 ==> base <= n <= 1.0
  {
    SpikeWithin(1.0 - base, uniform, e);
    base + (if hit then Spike(1.0 - base, uniform, e) else 0.0)
  }

  /** The size of a spike: the room left below 1, scaled by the uniform draw
      and by the effective action. */
  function Spike(room: real, uniform: real, e: real): real
  {
    room * uniform * e
  }

  lemma SpikeWithin(room: real, uniform: real, e: real)
    ensures 0.0 <= room && 0.0 <= uniform <= 1.0 && 0.0 <= e <= 1.0 ==> 0.0 <= Spike(room, uniform, e) <= room
  {
    if 0.0 <= room && 0.0 <= uniform <= 1.0 && 0.0 <= e <= 1.0 {
      var pull := room * uniform;
      ScaleDown(room, uniform);
      ScaleDown(pull, e);
      assert Spike(room, uniform, e) == pull * e;
    }
  }

  lemma ScaleDown(a: real, b: real)
    requires 0.0 <= a && 0.0 <= b <= 1.0
    ensures 0.0 <= a * b <= a
  {
    assert a - a * b == a * (1.0 - b);
  }

  /** One step of a latent fatigue variable with effective action e: amplified
      by 1.1 up to the cap 5 once it has reached 1.2, otherwise smoothed toward
      the noise while e exceeds the tolerance; reset to e when e is within
      the tolerance, whatever happened before. */
  function LatentStep(latent: real, e: real, noise: real): (r: real)
    ensures e <= ActionTolerance ==> r == e
    ensures e > ActionTolerance && latent >= FatigueAmplificationStart ==>
              r == Min(FatigueAmplificationMax, FatigueAmplification * latent) && r >= FatigueAmplificationStart
    ensures e > ActionTolerance && latent < FatigueAmplificationStart ==> r == 0.9 * latent + noise / 3.0
    ensures noise <= 1.0 ==> r <= FatigueAmplificationMax
    ensures 0.0 <= latent && 0.0 <= e && 0.0 <= noise ==> 0.0 <= r
  {
    var updated :=
      if latent >= FatigueAmplificationStart then Min(FatigueAmplificationMax, latent * FatigueAmplification)
      else if e > ActionTolerance then latent * 0.9 + noise / 3.0
      else latent;
    if e <= ActionTolerance then e else updated
  }

  /** The "bad noise" branch is taken when the larger latent equals the cap. */
  predicate UsesBadNoise(latentVelocity: real, latentGain: real)
  {
    Max(latentVelocity, latentGain) == FatigueAmplificationMax
  }

  /** A latent reaches the cap in one step exactly when it is acted upon and
      amplifying it would pass the cap: so the bad-noise branch is taken only
      in the runaway regime. */
  lemma BadNoiseOnlyInRunaway(lv: real, alpha: real, nv: real, lg: real, beta: real, ng: real)
    requires nv <= 1.0 && ng <= 1.0
    ensures UsesBadNoise(LatentStep(lv, alpha, nv), LatentStep(lg, beta, ng)) <==>
              (alpha > ActionTolerance && FatigueAmplification * lv >= FatigueAmplificationMax) ||
              (beta > ActionTolerance && FatigueAmplification * lg >= FatigueAmplificationMax)
  {
  }

  /** The signal that drives the observable: the bad noise in the runaway
      regime, otherwise the larger spiked noise; in [0, 1] for in-range draws. */
  function Dyn(latentVelocity: real, latentGain: real, noiseGain: real, noiseVelocity: real, badNoise: real): (dyn: real)
    ensures 0.0 <= noiseGain <= 1.0 && 0.0 <= noiseVelocity <= 1.0 && 0.0 < badNoise < 1.0 ==> 0.0 <= dyn <= 1.0
    ensures UsesBadNoise(latentVelocity, latentGain) ==> dyn == badNoise
    ensures !UsesBadNoise(latentVelocity, latentGain) ==> dyn >= noiseGain && dyn >= noiseVelocity
  {
    if UsesBadNoise(latentVelocity, latentGain) then badNoise else Max(noiseGain, noiseVelocity)
  }

  /** The deterministic base level dynOld, clamped at 0. */
  function FatigueBaseOf(c: FatigueConsts, velocity: real, gain: real): (r: real)
    requires c.dVelocity * velocity + c.dSetPoint != 0.0
    ensures r >= 0.0
    ensures c.dBase / (c.dVelocity * velocity + c.dSetPoint) - c.dGain * gain * gain >= 0.0 ==>
              r == c.dBase / (c.dVelocity * velocity + c.dSetPoint) - c.dGain * gain * gain
  {
    var raw := c.dBase / (c.dVelocity * velocity + c.dSetPoint) - c.dGain * gain * gain;
    if raw < 0.0 then 0.0 else raw
  }

  /** The observable fatigue (2*dyn + 1)*dynOld/3: between a third of the base
      level and the full base level when dyn lies in [0, 1]. */
  function FatigueOf(dyn: real, base: real): (f: real)
    ensures 0.0 <= dyn <= 1.0 && 0.0 <= base ==> base / 3.0 <= f <= base
  {
    assert 0.0 <= dyn <= 1.0 && 0.0 <= base ==> 0.0 <= dyn * base <= base;
    ((2.0 * dyn + 1.0) * base) / 3.0
  }

  /** One complete fatigue update from the current set-points, effective
      action, latents, draws and constants. */
  function FatigueStep(velocity: real, gain: real, alpha: real, beta: real,
                       latentVelocity: real, latentGain: real,
                       d: FatigueDraws, c: FatigueConsts): (u: FatigueUpdate)
    requires c.dVelocity * velocity + c.dSetPoint != 0.0
    ensures u.fatigueBase >= 0.0
    ensures DrawsInRange(d) && 0.0 <= alpha <= 1.0 && 0.0 <= beta <= 1.0 ==>
              && u.latentVelocity <= FatigueAmplificationMax && u.latentGain <= FatigueAmplificationMax
              && u.fatigueBase / 3.0 <= u.fatigue <= u.fatigueBase
    ensures alpha <= ActionTolerance ==> u.latentVelocity == alpha
    ensures beta <= ActionTolerance ==> u.latentGain == beta
  {
    var noiseGain := SpikedNoise(d.baseNoiseGain, d.uniformGain, d.hitGain, beta);
    var noiseVelocity := SpikedNoise(d.baseNoiseVelocity, d.uniformVelocity, d.hitVelocity, alpha);
    var lg := LatentStep(latentGain, beta, noiseGain);
    var lv := LatentStep(latentVelocity, alpha, noiseVelocity);
    var base := FatigueBaseOf(c, velocity, gain);
    var dyn := Dyn(lv, lg, noiseGain, noiseVelocity, d.badNoise);
    FatigueUpdate(FatigueOf(dyn, base), base, lv, lg)
  }

  function Pow(x: real, k: nat): real
    decreases k
  {
    if k == 0 then 1.0 else x * Pow(x, k - 1)
  }

  /** The latent after a run of updates, one per effective action in es and
      noise in ns. */
  function LatentAfter(latent: real, es: seq<real>, ns: seq<real>): real
    requires |es| == |ns|
    decreases |es|
  {
    if |es| == 0 then latent else LatentAfter(LatentStep(latent, es[0], ns[0]), es[1..], ns[1..])
  }

  /** The latent after k amplifications from the threshold on: 1.1^k times the
      start, capped at 5. */
  function Amplified(latent: real, k: nat): real
  {
    Min(FatigueAmplificationMax, Pow(FatigueAmplification, k) * latent)
  }

  /** Once a latent has reached 1.2 and the actuator stays acted upon, it grows
      geometrically to the cap whatever the noise: the runaway regime. */
  lemma {:induction false} RunawayIsGeometric(latent: real, es: seq<real>, ns: seq<real>)
    requires |es| == |ns| && FatigueAmplificationStart <= latent <= FatigueAmplificationMax
    requires forall i :: 0 <= i < |es| ==> es[i] > ActionTolerance
    ensures LatentAfter(latent, es, ns) == Amplified(latent, |es|)
    decreases |es|
  {
    if |es| > 0 {
      var next := LatentStep(latent, es[0], ns[0]);
      assert next == Min(FatigueAmplificationMax, FatigueAmplification * latent);
      RunawayIsGeometric(next, es[1..], ns[1..]);
      assert LatentAfter(latent, es, ns) == Amplified(next, |es| - 1);
      AmplifyThenScale(latent, |es|);
    }
  }

  /** Amplifying once and then k-1 more times is amplifying k times. */
  lemma AmplifyThenScale(latent: real, k: nat)
    requires k >= 1 && latent >= FatigueAmplificationStart
    ensures Amplified(Min(FatigueAmplificationMax, FatigueAmplification * latent), k - 1) == Amplified(latent, k)
  {
    var p := Pow(FatigueAmplification, k - 1);
    PowAtLeastOne(FatigueAmplification, k - 1);
    var q := FatigueAmplification * latent;
    assert Pow(FatigueAmplification, k) * latent == p * q;
    ScaleUp(q, p);
    if q >= FatigueAmplificationMax {
      ScaleUp(FatigueAmplificationMax, p);
    }
  }

  lemma ScaleUp(a: real, p: real)
    requires 0.0 <= a && p >= 1.0
    ensures p * a >= a
  {
    assert p * a - a == (p - 1.0) * a;
  }

  lemma {:induction false} PowAtLeastOne(x: real, k: nat)
    requires x >= 1.0
    ensures Pow(x, k) >= 1.0
    decreases k
  {
    if k > 0 {
      PowAtLeastOne(x, k - 1);
      assert x * Pow(x, k - 1) >= Pow(x, k - 1);
    }
  }

  /** Fifteen acted-upon steps from the amplification threshold on are enough
      to saturate a latent at the cap; fourteen are not (1.1^14 * 1.2 < 5). */
  lemma RunawaySaturates(latent: real, es: seq<real>, ns: seq<real>)
    requires |es| == |ns| == 15 && FatigueAmplificationStart <= latent <= FatigueAmplificationMax
    requires forall i :: 0 <= i < |es| ==> es[i] > ActionTolerance
    ensures LatentAfter(latent, es, ns) == FatigueAmplificationMax
  {
    RunawayIsGeometric(latent, es, ns);
    PowFifteen();
    var p := Pow(FatigueAmplification, 15);
    assert p * latent - p * FatigueAmplificationStart == p * (latent - FatigueAmplificationStart);
  }

  /** 1.1^15 * 1.2 reaches the cap 5, while 1.1^14 * 1.2 stays below it. */
  lemma PowFifteen()
    ensures Pow(1.1, 15) * 1.2 >= 5.0
    ensures Pow(1.1, 14) * 1.2 < 5.0
  {
    assert Pow(1.1, 3) == 1.331;
    assert Pow(1.1, 4) == 1.4641;
    assert Pow(1.1, 7) == 1.9487171 by { PowSplit(1.1, 4, 3); }
    assert Pow(1.1, 8) == 2.14358881 by { PowSplit(1.1, 4, 4); }
    assert Pow(1.1, 14) == 3.79749833583241 by { PowSplit(1.1, 7, 7); }
    assert Pow(1.1, 15) == 4.177248169415651 by { PowSplit(1.1, 8, 7); }
  }

  lemma {:induction false} PowSplit(x: real, a: nat, b: nat)
    ensures Pow(x, a + b) == Pow(x, a) * Pow(x, b)
    decreases a
  {
    if a > 0 {
      PowSplit(x, a - 1, b);
      assert Pow(x, a + b) == x * Pow(x, a - 1 + b);
    }
  }
}
