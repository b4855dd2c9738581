/** The names of the Markovian state of the benchmark dynamics and the values
    it holds. */
module MarkovState {

  /** The internal variables the dynamics engine reads or writes by name. */
  datatype Var =
    | ActionVelocity | ActionGain | ActionShift | EffectiveShift | SetPoint
    | Fatigue | FatigueBase | FatigueLatent1 | FatigueLatent2
    | EffectiveActionVelocityAlpha | EffectiveActionGainBeta
    | CurrentOperationalCost | OperationalCostsConv | Consumption
    | MisCalibration | MisCalibrationDomain | MisCalibrationSystemResponse
    | MisCalibrationPhiIdx | RandomSeed | RewardTotal

  /** A state key: a named internal variable, the cost lag "OPERATIONALCOST_i",
      or a variable contributed by an external driver. */
  datatype Key = Base(v: Var) | OperationalCost(lag: nat) | External(name: string)

  /** The number of named internal variables. */
  const VarCount: nat := 20

  /** The i-th named internal variable, in declaration order. */
  function VarAt(i: nat): Var
    requires i < VarCount
  {
    match i
    case 0 => ActionVelocity case 1 => ActionGain case 2 => ActionShift case 3 => EffectiveShift
    case 4 => SetPoint case 5 => Fatigue case 6 => FatigueBase case 7 => FatigueLatent1
    case 8 => FatigueLatent2 case 9 => EffectiveActionVelocityAlpha case 10 => EffectiveActionGainBeta
    case 11 => CurrentOperationalCost case 12 => OperationalCostsConv case 13 => Consumption
    case 14 => MisCalibration case 15 => MisCalibrationDomain case 16 => MisCalibrationSystemResponse
    case 17 => MisCalibrationPhiIdx case 18 => RandomSeed case _ => RewardTotal
  }

  /** Every named internal variable, in declaration order. */
  function AllVars(): (vs: seq<Var>)
    ensures |vs| == VarCount && forall i :: 0 <= i < VarCount ==> vs[i] == VarAt(i)
  {
    seq(VarCount, i requires 0 <= i < VarCount => VarAt(i))
  }

  /** The position of a variable in AllVars. */
  function VarIndex(v: Var): (i: nat)
    ensures i < VarCount && VarAt(i) == v
  {
    match v
    case ActionVelocity => 0 case ActionGain => 1 case ActionShift => 2 case EffectiveShift => 3
    case SetPoint => 4 case Fatigue => 5 case FatigueBase => 6 case FatigueLatent1 => 7
    case FatigueLatent2 => 8 case EffectiveActionVelocityAlpha => 9 case EffectiveActionGainBeta => 10
    case CurrentOperationalCost => 11 case OperationalCostsConv => 12 case Consumption => 13
    case MisCalibration => 14 case MisCalibrationDomain => 15 case MisCalibrationSystemResponse => 16
    case MisCalibrationPhiIdx => 17 case RandomSeed => 18 case RewardTotal => 19
  }

  /** A double as the external drivers may leave it: a number or NaN. */
  datatype Reading = NaN | Num(value: real)

  /** The key "OPERATIONALCOST_i" for every lag i below n. */
  function LagKeys(n: nat): (ks: seq<Key>)
    ensures |ks| == n
    ensures forall i :: 0 <= i < n ==> ks[i] == OperationalCost(i)
  {
    if n == 0 then [] else LagKeys(n - 1) + [OperationalCost(n - 1)]
  }

  /** The values of the lag keys 0 .. n-1 of a state, oldest first. */
  function LagValues(m: map<Key, real>, n: nat): (vs: seq<real>)
    requires forall i :: 0 <= i < n ==> OperationalCost(i) in m
    ensures |vs| == n
    ensures forall i :: 0 <= i < n ==> vs[i] == m[OperationalCost(i)]
  {
    if n == 0 then [] else LagValues(m, n - 1) + [m[OperationalCost(n - 1)]]
  }

  /** The state with every lag key i below n set to b[i]. */
  function WithLagsUpTo(m: map<Key, real>, b: seq<real>, n: nat): (m': map<Key, real>)
    requires n <= |b|
    ensures m'.Keys == m.Keys
    ensures forall k :: k in m && k.OperationalCost? && k.lag < n ==> m'[k] == b[k.lag]
    ensures forall k :: k in m && !(k.OperationalCost? && k.lag < n) ==> m'[k] == m[k]
  {
    map k | k in m :: if k.OperationalCost? && k.lag < n then b[k.lag] else m[k]
  }

  /** The state with every lag key i below |b| set to b[i]. */
  function WithLags(m: map<Key, real>, b: seq<real>): (m': map<Key, real>)
  {
    WithLagsUpTo(m, b, |b|)
  }

  /** Exposing one more slot sets one more lag key. */
  lemma WithLagsStep(m: map<Key, real>, b: seq<real>, n: nat)
    requires n < |b| && OperationalCost(n) in m
    ensures WithLagsUpTo(m, b, n + 1) == WithLagsUpTo(m, b, n)[OperationalCost(n) := b[n]]
  {
    var lhs, rhs := WithLagsUpTo(m, b, n + 1), WithLagsUpTo(m, b, n)[OperationalCost(n) := b[n]];
    assert lhs.Keys == rhs.Keys;
    forall k | k in lhs ensures lhs[k] == rhs[k] {
    }
  }

  /** Exposing a history as lag keys and reading the lags back gives the
      history; every key that is not one of those lags keeps its value. */
  lemma ExposeThenReadLags(m: map<Key, real>, b: seq<real>)
    requires forall i :: 0 <= i < |b| ==> OperationalCost(i) in m
    ensures LagValues(WithLags(m, b), |b|) == b
    ensures forall k :: k in m && !(k.OperationalCost? && k.lag < |b|) ==> WithLags(m, b)[k] == m[k]
  {
    var exposed := WithLags(m, b);
    var back := LagValues(exposed, |b|);
    forall i | 0 <= i < |b| ensures back[i] == b[i] {
      assert back[i] == exposed[OperationalCost(i)];
    }
  }

  /** A copy of a state, as handed out by and taken back from the engine. */
  class StateVector {
    var values: map<Key, real>

    constructor (m: map<Key, real>)
      ensures values == m
    {
      values := m;
    }
  }
}
