/** The per-step dynamics engine of the industrial benchmark
    (IndustrialBenchmarkDynamics): its Markovian state, bounds and
    operational-cost history, and the bookkeeping steps that update them. */
module Dynamics {
  import opened Wrappers
  import opened MarkovState
  import opened ActionFolding
  import opened FatigueProcess
  import opened CostHistory
  import opened Configuration

  /** The configured constants CostSetPoint, CostGain and CostVelocity. */
  datatype CostConsts = CostConsts(costSetPoint: real, costGain: real, costVelocity: real)

  /** The exponent of the instantaneous operational cost, exp of which is the cost. */
  function CostExponent(c: CostConsts, setPoint: real, gain: real, velocity: real): real
  {
    (c.costSetPoint * setPoint + c.costGain * gain + c.costVelocity * velocity) / 100.0
  }

  /** The keys of every named internal variable. */
  function BaseKeys(vs: seq<Var>): (ks: seq<Key>)
    ensures |ks| == |vs| && forall i :: 0 <= i < |vs| ==> ks[i] == Base(vs[i])
  {
    if vs == [] then [] else [Base(vs[0])] + BaseKeys(vs[1..])
  }

  /** The fixed key set of a configured engine with n lags: shared by state
      and bounds, holding every named variable and every lag, with max > min. */
  ghost predicate KeySetOk(keys: set<Key>, mMin: map<Key, real>, mMax: map<Key, real>, n: nat)
  {
    && keys == mMin.Keys == mMax.Keys
    && (forall v: Var :: Base(v) in keys)
    && (forall i :: 0 <= i < n ==> OperationalCost(i) in keys)
    && (forall k :: k in mMin ==> mMin[k] < mMax[k])
  }

  /** Where a key of the state comes from: a lag, a named variable, or a
      driver. */
  ghost predicate KeyOrigin(k: Key, n: nat, driverKeys: seq<seq<Key>>)
  {
    (k.OperationalCost? && k.lag < n) || k.Base? || exists d :: 0 <= d < |driverKeys| && k in driverKeys[d]
  }

  /** The key list init builds holds every lag and named variable, and every
      key in it has an origin. */
  lemma KeyListFacts(n: nat, driverKeys: seq<seq<Key>>, named: seq<Key>, ext: seq<Key>, keys: seq<Key>)
    requires keys == LagKeys(n) + named + ext
    requires forall v: Var :: Base(v) in named
    requires forall i :: 0 <= i < |named| ==> named[i].Base?
    requires forall k :: k in ext ==> exists d :: 0 <= d < |driverKeys| && k in driverKeys[d]
    ensures forall i :: 0 <= i < n ==> OperationalCost(i) in keys
    ensures forall v: Var :: Base(v) in keys
    ensures forall k :: k in keys ==> KeyOrigin(k, n, driverKeys)
  {
    forall i | 0 <= i < n ensures OperationalCost(i) in keys {
      assert keys[i] == OperationalCost(i);
    }
    forall k | k in keys ensures KeyOrigin(k, n, driverKeys) {
      KeyHasOrigin(n, driverKeys, named, ext, keys, k);
    }
  }

  /** The keys of the named variables: all of them, and nothing else. */
  lemma NamedKeysFacts()
    ensures forall v: Var :: Base(v) in BaseKeys(AllVars())
    ensures forall i :: 0 <= i < |BaseKeys(AllVars())| ==> BaseKeys(AllVars())[i].Base?
  {
    forall v: Var ensures Base(v) in BaseKeys(AllVars()) {
      assert BaseKeys(AllVars())[VarIndex(v)] == Base(v);
    }
  }

  lemma KeyHasOrigin(n: nat, driverKeys: seq<seq<Key>>, named: seq<Key>, ext: seq<Key>, keys: seq<Key>, k: Key)
    requires keys == LagKeys(n) + named + ext
    requires forall i :: 0 <= i < |named| ==> named[i].Base?
    requires forall k :: k in ext ==> exists d :: 0 <= d < |driverKeys| && k in driverKeys[d]
    requires k in keys
    ensures KeyOrigin(k, n, driverKeys)
  {
    var j :| 0 <= j < |keys| && keys[j] == k;
    if j < n {
      assert k == OperationalCost(j);
    } else if j < n + |named| {
      assert k == named[j - n];
    } else {
      assert k == ext[j - n - |named|];
    }
  }

  class IndustrialBenchmarkDynamics {
    const stepSizeVelocity: real
    const stepSizeGain: real
    var crgs: real
    /** mEmConvWeights: the convolution weights; their number is the history length. */
    var weights: seq<real>
    /** mOperationalCostsBuffer; null until init has run. */
    var buffer: CostBuffer?
    /** Whether the next cost still has to bootstrap the history. */
    var convToInit: bool
    var markovState: map<Key, real>
    var mMin: map<Key, real>
    var mMax: map<Key, real>
    ghost var Repr: set<object>

    /** The engine after init: a full history of one slot per weight, one key
        set shared by state and bounds holding every named variable and every
        lag, and max > min for every key. */
    ghost predicate Valid()
      reads this, Repr
    {
      HistoryValid() && KeySetOk(markovState.Keys, mMin, mMax, |weights|)
    }

    /** The part of Valid about the history alone. */
    ghost predicate HistoryValid()
      reads this`Repr, this`buffer, this`weights, Repr
    {
      && this in Repr && buffer != null && buffer in Repr && buffer.data in Repr
      && Repr == {this, buffer, buffer.data}
      && buffer.Valid()
      && buffer.capacity == |weights| && |buffer.Contents| == |weights|
    }

    /** Every lag key holds the history slot of the same index. */
    ghost predicate LagsMirrorBuffer()
      reads this, Repr
      requires Valid()
    {
      forall i :: 0 <= i < |weights| ==> markovState[OperationalCost(i)] == buffer.Contents[i]
    }

    /** The field initialisers and step sizes; the history does not exist yet. */
    constructor (stepSizeGain: real, stepSizeVelocity: real)
      ensures this.stepSizeGain == stepSizeGain && this.stepSizeVelocity == stepSizeVelocity
      ensures convToInit && buffer == null && Repr == {this}
    {
      this.stepSizeGain := stepSizeGain;
      this.stepSizeVelocity := stepSizeVelocity;
      crgs := 0.0;
      weights := [];
      buffer := null;
      convToInit := true;
      markovState, mMin, mMax := map[], map[], map[];
      Repr := {this};
    }

    /** The constructor's field setup followed by init, before the zero-action
        step the constructor ends with: the history is still all zeros and
        the bootstrap flag still armed. A bound violation is an error and
        yields no engine. */
    static method Create(stepSizeGain: real, stepSizeVelocity: real, crgs: real, weights: seq<real>,
                         driverKeys: seq<seq<Key>>, cfg: Config, driverWrites: map<Key, Reading>)
      returns (r: Result<IndustrialBenchmarkDynamics, ConfigError>)
      requires |weights| > 0
      ensures r.Success? ==> fresh(r.value.Repr) && r.value.Valid() && r.value.convToInit
      ensures r.Success? ==> r.value.buffer.Contents == Repeat(0.0, |weights|)
    {
      var d := new IndustrialBenchmarkDynamics(stepSizeGain, stepSizeVelocity);
      var o := d.Init(crgs, weights, driverKeys, cfg, driverWrites);
      if o.Fail? {
        return Failure(o.error);
      }
      r := Success(d);
    }

    /** init: a zero-filled history of one slot per weight, the key set (lags,
        named variables, then new driver keys), the bound checks, the values
        the drivers' filter leaves and the NaN pass. It does not re-arm the
        bootstrap flag. */
    method Init(crgs: real, weights: seq<real>, driverKeys: seq<seq<Key>>, cfg: Config,
                driverWrites: map<Key, Reading>)
      returns (r: Outcome<ConfigError>)
      requires |weights| > 0
      modifies this
      ensures convToInit == old(convToInit)
      ensures r.Pass? ==> fresh(Repr - {this})
      ensures r.Pass? ==> Valid()
      ensures r.Pass? ==> this.weights == weights && this.crgs == crgs
      ensures r.Pass? ==> buffer.Contents == Repeat(0.0, |weights|)
      ensures r.Pass? ==>
                forall d, k :: 0 <= d < |driverKeys| && k in driverKeys[d] ==> k in markovState
      ensures r.Pass? ==> forall k :: k in markovState ==> KeyOrigin(k, |weights|, driverKeys)
      ensures r.Pass? ==>
                forall k :: k in markovState ==>
                  && KeyOk(cfg, k) && mMin[k] == MinOf(cfg, k) && mMax[k] == MaxOf(cfg, k)
                  && markovState[k] == (if k !in driverWrites then InitOf(cfg, k)
                                        else if driverWrites[k].NaN? then 0.0 else driverWrites[k].value)
      ensures r.Fail? ==>
                exists k :: KeyOrigin(k, |weights|, driverKeys) && !KeyOk(cfg, k) && r.error == ErrorFor(cfg, k)
    {
      this.crgs := crgs;
      this.weights := weights;
      var history, configured := Configure(|weights|, driverKeys, cfg, driverWrites);
      if configured.Failure? {
        buffer := history;
        return Fail(configured.error);
      }
      Install(history, configured.value);
      r := Pass;
    }

    /** The work of init that does not touch the engine: the zero history,
        the key list and the bounds, initial values and checks of every key. */
    static method Configure(n: nat, driverKeys: seq<seq<Key>>, cfg: Config, driverWrites: map<Key, Reading>)
      returns (history: CostBuffer, r: Result<Bounds, ConfigError>)
      requires n > 0
      ensures fresh(history) && fresh(history.data) && history.Valid()
      ensures history.capacity == n && history.Contents == Repeat(0.0, n)
      ensures r.Success? ==> KeySetOk(r.value.inits.Keys, r.value.mins, r.value.maxs, n)
      ensures r.Success? ==>
                forall d, k :: 0 <= d < |driverKeys| && k in driverKeys[d] ==> k in r.value.inits
      ensures r.Success? ==> forall k :: k in r.value.inits ==> KeyOrigin(k, n, driverKeys)
      ensures r.Success? ==>
                forall k :: k in r.value.inits ==>
                  && KeyOk(cfg, k) && r.value.mins[k] == MinOf(cfg, k) && r.value.maxs[k] == MaxOf(cfg, k)
                  && r.value.inits[k] == (if k !in driverWrites then InitOf(cfg, k)
                                          else if driverWrites[k].NaN? then 0.0 else driverWrites[k].value)
      ensures r.Failure? ==>
                exists k :: KeyOrigin(k, n, driverKeys) && !KeyOk(cfg, k) && r.error == ErrorFor(cfg, k)
    {
      var lagNames;
      history, lagNames := ZeroHistory(n);
      var keys := StateKeys(lagNames, driverKeys);
      r := ConfigureState(keys, cfg, driverWrites);
    }

    /** The end of a successful init: the zero history and the checked key
        set become the engine's. */
    method Install(history: CostBuffer, bounds: Bounds)
      requires history.Valid() && history.capacity == |weights| && |history.Contents| == |weights|
      requires KeySetOk(bounds.inits.Keys, bounds.mins, bounds.maxs, |weights|)
      modifies this
      ensures Valid() && Repr == {this, history, history.data}
      ensures buffer == history && markovState == bounds.inits && mMin == bounds.mins && mMax == bounds.maxs
      ensures weights == old(weights) && crgs == old(crgs) && convToInit == old(convToInit)
    {
      buffer := history;
      mMin, mMax, markovState := bounds.mins, bounds.maxs, bounds.inits;
      Repr := {this, buffer, buffer.data};
    }

    /** The bounds loop of init, then the drivers' filter and the NaN pass:
        the bounds of every key and the initial state, or the first bound
        violation. */
    static method ConfigureState(keys: seq<Key>, cfg: Config, driverWrites: map<Key, Reading>)
      returns (r: Result<Bounds, ConfigError>)
      ensures r.Success? ==>
                && r.value.mins.Keys == r.value.maxs.Keys == r.value.inits.Keys
                && forall k :: k in r.value.inits <==> k in keys
      ensures r.Success? ==>
                forall k :: k in r.value.inits ==>
                  && KeyOk(cfg, k) && r.value.mins[k] == MinOf(cfg, k) && r.value.maxs[k] == MaxOf(cfg, k)
                  && r.value.inits[k] == (if k !in driverWrites then InitOf(cfg, k)
                                          else if driverWrites[k].NaN? then 0.0 else driverWrites[k].value)
      ensures r.Failure? ==> exists k :: k in keys && !KeyOk(cfg, k) && r.error == ErrorFor(cfg, k)
    {
      var checked := CheckBounds(keys, cfg);
      if checked.Failure? {
        return Failure(checked.error);
      }
      var initial := checked.value.inits;
      // the external drivers' filter, then every NaN becomes zero
      var filtered := map k | k in initial :: if k in driverWrites then driverWrites[k] else Num(initial[k]);
      var state := ClearNaNs(keys, filtered);
      r := Success(Bounds(checked.value.mins, checked.value.maxs, state));
    }

    /** The key list of init: the lag names, the named variables, then each
        driver key not already present. */
    static method StateKeys(lagNames: seq<Key>, driverKeys: seq<seq<Key>>) returns (keys: seq<Key>)
      requires lagNames == LagKeys(|lagNames|)
      ensures forall i :: 0 <= i < |lagNames| ==> OperationalCost(i) in keys
      ensures forall v: Var :: Base(v) in keys
      ensures forall k :: k in keys ==> KeyOrigin(k, |lagNames|, driverKeys)
      ensures forall d, k :: 0 <= d < |driverKeys| && k in driverKeys[d] ==> k in keys
    {
      var named := BaseKeys(AllVars());
      NamedKeysFacts();
      var names := lagNames + named;
      var ext := CollectDriverKeys(driverKeys, names);
      keys := names + ext;
      KeyListFacts(|lagNames|, driverKeys, named, ext, keys);
    }

    /** The loop at the head of init: a history of n zeros and the lag names. */
    static method ZeroHistory(n: nat) returns (history: CostBuffer, names: seq<Key>)
      requires n > 0
      ensures fresh(history) && fresh(history.data) && history.Valid()
      ensures history.capacity == n && history.Contents == Repeat(0.0, n)
      ensures names == LagKeys(n)
    {
      history := new CostBuffer(n);
      names := [];
      var i := 0;
      while i < n
        invariant 0 <= i <= n
        invariant history.Valid() && fresh(history.data) && history.capacity == n
        invariant history.Contents == Repeat(0.0, i)
        invariant names == LagKeys(i)
      {
        history.Add(0.0);
        names := names + [OperationalCost(i)];
        i := i + 1;
      }
    }

    /** reset: init again. The bootstrap flag keeps whatever value it had, so
        after the first step the rebuilt zero history is not bootstrapped. */
    method Reset(crgs: real, weights: seq<real>, driverKeys: seq<seq<Key>>, cfg: Config,
                 driverWrites: map<Key, Reading>)
      returns (r: Outcome<ConfigError>)
      requires |weights| > 0
      modifies this
      ensures convToInit == old(convToInit)
      ensures r.Pass? ==> fresh(Repr - {this})
      ensures r.Pass? ==> Valid()
      ensures r.Pass? ==> this.weights == weights && this.crgs == crgs
      ensures r.Pass? ==> buffer.Contents == Repeat(0.0, |weights|)
      ensures r.Pass? ==>
                forall d, k :: 0 <= d < |driverKeys| && k in driverKeys[d] ==> k in markovState
      ensures r.Pass? ==> forall k :: k in markovState ==> KeyOrigin(k, |weights|, driverKeys)
      ensures r.Pass? ==>
                forall k :: k in markovState ==>
                  && KeyOk(cfg, k) && mMin[k] == MinOf(cfg, k) && mMax[k] == MaxOf(cfg, k)
                  && markovState[k] == (if k !in driverWrites then InitOf(cfg, k)
                                        else if driverWrites[k].NaN? then 0.0 else driverWrites[k].value)
      ensures r.Fail? ==>
                exists k :: KeyOrigin(k, |weights|, driverKeys) && !KeyOk(cfg, k) && r.error == ErrorFor(cfg, k)
    {
      r := Init(crgs, weights, driverKeys, cfg, driverWrites);
    }

    /** addAction: fold the action into velocity, gain and shift and derive
        the effective shift; nothing else in the state changes. */
    method AddAction(a: Action)
      requires Valid()
      modifies this`markovState
      ensures Valid()
      ensures
        var velocity := NewVelocity(a, old(markovState[Base(ActionVelocity)]), stepSizeVelocity,
                                    mMin[Base(ActionVelocity)], mMax[Base(ActionVelocity)]);
        var gain := NewGain(a, old(markovState[Base(ActionGain)]), stepSizeGain,
                            mMin[Base(ActionGain)], mMax[Base(ActionGain)]);
        var shift := NewShift(a, old(markovState[Base(ActionShift)]));
        markovState == old(markovState)[Base(ActionVelocity) := velocity][Base(ActionGain) := gain]
                                       [Base(ActionShift) := shift]
                                       [Base(EffectiveShift) := EffectiveShiftOf(shift, old(markovState[Base(SetPoint)]))]
      ensures mMin[Base(ActionVelocity)] <= markovState[Base(ActionVelocity)] <= mMax[Base(ActionVelocity)]
      ensures mMin[Base(ActionGain)] <= markovState[Base(ActionGain)] <= mMax[Base(ActionGain)]
      ensures ShiftMin <= markovState[Base(ActionShift)] <= ShiftMax
      ensures -GsBound <= markovState[Base(EffectiveShift)] <= GsBound
      ensures forall k :: k in old(markovState) && !k.Base? ==> markovState[k] == old(markovState)[k]
      ensures forall v :: v !in {ActionVelocity, ActionGain, ActionShift, EffectiveShift} ==>
                markovState[Base(v)] == old(markovState)[Base(v)]
    {
      var velocityMax, velocityMin := mMax[Base(ActionVelocity)], mMin[Base(ActionVelocity)];
      var velocity := FoldDelta(markovState[Base(ActionVelocity)], if a.Delta? then a.deltaVelocity else 0.0,
                                stepSizeVelocity, velocityMin, velocityMax);
      if a.Absolute? {
        velocity := FoldAbsolute(markovState[Base(ActionVelocity)], a.velocity, stepSizeVelocity, velocityMin, velocityMax);
      }
      var gainMax, gainMin := mMax[Base(ActionGain)], mMin[Base(ActionGain)];
      var gain := FoldDelta(markovState[Base(ActionGain)], if a.Delta? then a.deltaGain else 0.0,
                            stepSizeGain, gainMin, gainMax);
      if a.Absolute? {
        gain := FoldAbsolute(markovState[Base(ActionGain)], a.gain, stepSizeGain, gainMin, gainMax);
      }
      var shift := FoldDelta(markovState[Base(ActionShift)], if a.Delta? then a.deltaShift else 0.0,
                             ShiftStep, ShiftMin, ShiftMax);
      if a.Absolute? {
        shift := FoldAbsolute(markovState[Base(ActionShift)], a.shift, ShiftStep, ShiftMin, ShiftMax);
      }
      var hiddenShift := EffectiveShiftOf(shift, markovState[Base(SetPoint)]);
      markovState := markovState[Base(ActionVelocity) := velocity];
      markovState := markovState[Base(ActionGain) := gain];
      markovState := markovState[Base(ActionShift) := shift];
      markovState := markovState[Base(EffectiveShift) := hiddenShift];
    }

    /** updateFatigue: one step of the fatigue process, writing the fatigue,
        its base level, both latents and both effective-action scalars. */
    method UpdateFatigue(alpha: real, beta: real, draws: FatigueDraws, c: FatigueConsts)
      requires Valid()
      requires c.dVelocity * markovState[Base(ActionVelocity)] + c.dSetPoint != 0.0
      modifies this`markovState
      ensures Valid()
      ensures
        var u := FatigueStep(old(markovState[Base(ActionVelocity)]), old(markovState[Base(ActionGain)]),
                             alpha, beta,
                             old(markovState[Base(FatigueLatent1)]), old(markovState[Base(FatigueLatent2)]),
                             draws, c);
        markovState == old(markovState)[Base(Fatigue) := u.fatigue][Base(FatigueBase) := u.fatigueBase]
                                       [Base(FatigueLatent1) := u.latentVelocity]
                                       [Base(FatigueLatent2) := u.latentGain]
                                       [Base(EffectiveActionVelocityAlpha) := alpha]
                                       [Base(EffectiveActionGainBeta) := beta]
      ensures markovState[Base(FatigueBase)] >= 0.0
      ensures alpha <= ActionTolerance ==> markovState[Base(FatigueLatent1)] == alpha
      ensures beta <= ActionTolerance ==> markovState[Base(FatigueLatent2)] == beta
    {
      var u := FatigueStep(markovState[Base(ActionVelocity)], markovState[Base(ActionGain)], alpha, beta,
                           markovState[Base(FatigueLatent1)], markovState[Base(FatigueLatent2)], draws, c);
      markovState := markovState[Base(Fatigue) := u.fatigue][Base(FatigueBase) := u.fatigueBase];
      markovState := markovState[Base(FatigueLatent1) := u.latentVelocity][Base(FatigueLatent2) := u.latentGain];
      markovState := markovState[Base(EffectiveActionVelocityAlpha) := alpha][Base(EffectiveActionGainBeta) := beta];
    }

    /** updateCurrentOperationalCost: record exp of the cost exponent as the
        current cost and add it to the history; the first time, bootstrap the
        whole history with it. */
    method UpdateCurrentOperationalCost(c: CostConsts, exp: real -> real)
      requires Valid()
      modifies this`markovState, this`convToInit, buffer, buffer.data
      ensures Valid() && !convToInit
      ensures
        var cost := exp(CostExponent(c, old(markovState[Base(SetPoint)]), old(markovState[Base(ActionGain)]),
                                     old(markovState[Base(ActionVelocity)])));
        && markovState == old(markovState)[Base(CurrentOperationalCost) := cost]
        && (old(convToInit) ==> buffer.Contents == Repeat(cost, |weights|))
        && (!old(convToInit) ==> buffer.Contents == old(buffer.Contents)[1..] + [cost])
    {
      var setPoint, gain, velocity := markovState[Base(SetPoint)], markovState[Base(ActionGain)], markovState[Base(ActionVelocity)];
      var cost := exp(CostExponent(c, setPoint, gain, velocity));
      markovState := markovState[Base(CurrentOperationalCost) := cost];
      ghost var before := buffer.Contents;
      buffer.Add(cost);
      if convToInit {
        FillRest(buffer, cost, before);
        convToInit := false;
      }
    }

    /** The bootstrap loop of updateCurrentOperationalCost: after the first
        add, size - 1 more adds of the same cost fill the whole history. */
    static method FillRest(history: CostBuffer, cost: real, ghost before: seq<real>)
      requires history.Valid() && |before| == history.capacity == |history.Contents|
      requires history.Contents == before[1..] + [cost]
      modifies history, history.data
      ensures history.Valid() && history.Contents == Repeat(cost, history.capacity)
    {
      var i := 1;
      var size := history.Size();
      while i < size
        invariant 1 <= i <= size == history.capacity
        invariant history.Valid() && |history.Contents| == size
        invariant history.Contents == before[i..] + Repeat(cost, i)
      {
        history.Add(cost);
        assert history.Contents == before[i + 1..] + Repeat(cost, i + 1) by {
          SlideIn(before, i, Repeat(cost, i), cost);
          assert Repeat(cost, i) + [cost] == Repeat(cost, i + 1);
        }
        i := i + 1;
        size := history.Size();
      }
      assert before[i..] == [];
    }

    /** updateOperationalCostCovolution: the weighted sum of the history,
        oldest first, becomes the convoluted cost, and each slot is exposed as
        its lag key. */
    method UpdateOperationalCostConvolution()
      requires Valid()
      modifies this`markovState
      ensures Valid() && LagsMirrorBuffer()
      ensures markovState == WithLags(old(markovState), buffer.Contents)
                               [Base(OperationalCostsConv) := Dot(weights, buffer.Contents)]
    {
      var exposed, aggregated := ExposeHistory(buffer, weights, markovState);
      markovState := exposed[Base(OperationalCostsConv) := aggregated];
      assert HistoryValid() && markovState.Keys == old(markovState).Keys;
    }

    /** The loop of updateOperationalCostCovolution: slot oci, oldest first,
        is weighted into the sum and written to lag key oci. */
    static method ExposeHistory(history: CostBuffer, weights: seq<real>, state: map<Key, real>)
      returns (exposed: map<Key, real>, aggregated: real)
      requires history.Valid() && |history.Contents| == |weights|
      requires forall i :: 0 <= i < |weights| ==> OperationalCost(i) in state
      ensures exposed == WithLags(state, history.Contents)
      ensures aggregated == Dot(weights, history.Contents)
    {
      exposed := state;
      aggregated := 0.0;
      var oci := 0;
      var size := history.Size();
      while oci < size
        invariant 0 <= oci <= size == |weights|
        invariant aggregated == DotUpTo(weights, history.Contents, oci)
        invariant exposed == WithLagsUpTo(state, history.Contents, oci)
      {
        var operationalCost := history.Get(oci);
        aggregated := aggregated + Weighted(weights[oci], operationalCost);
        WithLagsStep(state, history.Contents, oci);
        exposed := exposed[OperationalCost(oci) := operationalCost];
        oci := oci + 1;
      }
    }

    /** getOperationalCostsHistoryLength: always the number of weights. */
    method GetOperationalCostsHistoryLength() returns (n: int)
      requires Valid()
      ensures n == |weights| && n > 0
    {
      n := buffer.Size();
    }

    /** getMarkovState: a copy of the full state. */
    method GetMarkovState() returns (s: StateVector)
      requires Valid()
      ensures fresh(s) && s.values == markovState
    {
      s := new StateVector(markovState);
    }

    /** setMarkovState: import every key of the snapshot, then rebuild the
        history from its lags. As in the source, the convoluted cost is
        written into the caller's snapshot, not into the engine's state. */
    method SetMarkovState(snapshot: StateVector)
      requires Valid()
      requires snapshot.values.Keys == markovState.Keys
      modifies this`markovState, buffer, buffer.data, snapshot
      ensures Valid()
      ensures markovState == old(snapshot.values)
      ensures buffer.Contents == LagValues(old(snapshot.values), |weights|)
      ensures snapshot.values == old(snapshot.values)[Base(OperationalCostsConv) := Dot(weights, buffer.Contents)]
    {
      ImportKeys(snapshot.values);
      // the history is rebuilt from the snapshot's lags
      var aggregated := RebuildHistory(snapshot.values);
      snapshot.values := snapshot.values[Base(OperationalCostsConv) := aggregated];
    }

    /** The import loop of setMarkovState: each key of the snapshot overwrites
        the engine's value. */
    method ImportKeys(values: map<Key, real>)
      requires Valid() && values.Keys == markovState.Keys
      modifies this`markovState
      ensures Valid() && markovState == values
    {
      var remaining := values.Keys;
      while remaining != {}
        invariant remaining <= values.Keys
        invariant markovState.Keys == values.Keys
        invariant forall k :: k in markovState && k !in remaining ==> markovState[k] == values[k]
        decreases remaining
      {
        var key :| key in remaining;
        markovState := markovState[key := values[key]];
        remaining := remaining - {key};
      }
    }

    /** The rebuild loop of setMarkovState: each lag, in order, is added to
        the history and weighted into the convolution sum. */
    method RebuildHistory(values: map<Key, real>) returns (aggregated: real)
      requires Valid() && forall i :: 0 <= i < |weights| ==> OperationalCost(i) in values
      modifies buffer, buffer.data
      ensures Valid()
      ensures buffer.Contents == LagValues(values, |weights|)
      ensures aggregated == Dot(weights, buffer.Contents)
    {
      aggregated := RefillFromLags(buffer, weights, values);
    }

    /** The loop of the rebuild on the history alone. */
    static method RefillFromLags(history: CostBuffer, weights: seq<real>, values: map<Key, real>)
      returns (aggregated: real)
      requires history.Valid() && history.capacity == |weights| == |history.Contents|
      requires forall i :: 0 <= i < |weights| ==> OperationalCost(i) in values
      modifies history, history.data
      ensures history.Valid() && history.capacity == |weights|
      ensures history.Contents == LagValues(values, |weights|)
      ensures aggregated == Dot(weights, history.Contents)
    {
      var n := |weights|;
      ghost var before := history.Contents;
      ghost var target := LagValues(values, n);
      aggregated := 0.0;
      var i := 0;
      while i < n
        invariant 0 <= i <= n
        invariant history.Valid() && |history.Contents| == n
        invariant history.Contents == before[i..] + LagValues(values, i)
        invariant aggregated == DotUpTo(weights, target, i)
      {
        var key := OperationalCost(i);
        var operationalCost := values[key];
        aggregated := aggregated + Weighted(weights[i], operationalCost);
        ghost var lags := LagValues(values, i);
        assert LagValues(values, i + 1) == lags + [operationalCost];
        history.Add(operationalCost);
        assert history.Contents == before[i + 1..] + (lags + [operationalCost]) by {
          SlideIn(before, i, lags, operationalCost);
        }
        i := i + 1;
      }
      assert before[n..] == [];
    }

    /** Restoring a snapshot just taken from an engine whose lag keys mirror
        its history changes neither the state nor the history. */
    method SnapshotRoundTrip()
      requires Valid() && LagsMirrorBuffer()
      modifies this`markovState, buffer, buffer.data
      ensures Valid()
      ensures markovState == old(markovState) && buffer.Contents == old(buffer.Contents)
    {
      var s := GetMarkovState();
      SetMarkovState(s);
      assert buffer.Contents == old(buffer.Contents);
    }

    /** The cost step on a zero history once the bootstrap flag is off: the
        history holds zeros and the new cost, and the convolution sees only
        the newest weight. */
    method ColdCostStep(c: CostConsts, exp: real -> real) returns (cost: real)
      requires Valid() && !convToInit && buffer.Contents == Repeat(0.0, |weights|)
      modifies this`markovState, this`convToInit, buffer, buffer.data
      ensures Valid()
      ensures buffer.Contents == Repeat(0.0, |weights| - 1) + [cost]
      ensures markovState[Base(OperationalCostsConv)] == Weighted(weights[|weights| - 1], cost)
    {
      cost := exp(CostExponent(c, markovState[Base(SetPoint)], markovState[Base(ActionGain)],
                               markovState[Base(ActionVelocity)]));
      assert Repeat(0.0, |weights|)[1..] + [cost] == Repeat(0.0, |weights| - 1) + [cost];
      UpdateCurrentOperationalCost(c, exp);
      UpdateOperationalCostConvolution();
      DotColdStart(weights, buffer.Contents, cost);
    }

    /** After reset on an engine that has already stepped, the first cost is
        not bootstrapped: the history holds zeros and that cost, and the
        convolution sees only the newest weight. */
    method FirstCostAfterReset(crgs: real, weights: seq<real>, driverKeys: seq<seq<Key>>, cfg: Config,
                               driverWrites: map<Key, Reading>, c: CostConsts, exp: real -> real)
      returns (r: Outcome<ConfigError>, cost: real)
      requires Valid() && !convToInit && |weights| > 0
      modifies this, buffer, buffer.data
      ensures r.Pass? ==> Valid()
      ensures r.Pass? ==> buffer.Contents == Repeat(0.0, |weights| - 1) + [cost]
      ensures r.Pass? ==> markovState[Base(OperationalCostsConv)] == Weighted(weights[|weights| - 1], cost)
    {
      cost := 0.0;
      r := Reset(crgs, weights, driverKeys, cfg, driverWrites);
      if r.Pass? {
        cost := ColdCostStep(c, exp);
      }
    }

    /** reset with the bootstrap flag re-armed, so that the engine after reset
        behaves as a freshly constructed one. */
    method ResetRearmed(crgs: real, weights: seq<real>, driverKeys: seq<seq<Key>>, cfg: Config,
                        driverWrites: map<Key, Reading>)
      returns (r: Outcome<ConfigError>)
      requires |weights| > 0
      modifies this
      ensures r.Pass? ==> fresh(Repr - {this}) && Valid() && convToInit
      ensures r.Pass? ==> this.weights == weights && this.crgs == crgs
      ensures r.Pass? ==> buffer.Contents == Repeat(0.0, |weights|)
    {
      r := Init(crgs, weights, driverKeys, cfg, driverWrites);
      convToInit := true;
    }

    /** The cost step while the bootstrap flag is armed: the history fills
        with the new cost and the convolution is that cost times the sum of
        the weights. */
    method BootstrapCostStep(c: CostConsts, exp: real -> real) returns (cost: real)
      requires Valid() && convToInit
      modifies this`markovState, this`convToInit, buffer, buffer.data
      ensures Valid() && !convToInit
      ensures buffer.Contents == Repeat(cost, |weights|)
      ensures markovState[Base(OperationalCostsConv)] == Weighted(Sum(weights), cost)
    {
      cost := exp(CostExponent(c, markovState[Base(SetPoint)], markovState[Base(ActionGain)],
                               markovState[Base(ActionVelocity)]));
      UpdateCurrentOperationalCost(c, exp);
      UpdateOperationalCostConvolution();
      DotRepeat(weights, cost);
    }

    /** With the flag re-armed, the first cost after reset fills the whole
        history, and the convolution is that cost times the sum of the
        weights, as on a fresh engine. */
    method FirstCostAfterRearmedReset(crgs: real, weights: seq<real>, driverKeys: seq<seq<Key>>, cfg: Config,
                                      driverWrites: map<Key, Reading>, c: CostConsts, exp: real -> real)
      returns (r: Outcome<ConfigError>, cost: real)
      requires Valid() && |weights| > 0
      modifies this, buffer, buffer.data
      ensures r.Pass? ==> Valid() && !convToInit
      ensures r.Pass? ==> buffer.Contents == Repeat(cost, |weights|)
      ensures r.Pass? ==> markovState[Base(OperationalCostsConv)] == Weighted(Sum(weights), cost)
    {
      cost := 0.0;
      r := ResetRearmed(crgs, weights, driverKeys, cfg, driverWrites);
      if r.Pass? {
        cost := BootstrapCostStep(c, exp);
      }
    }

    /** As written, setMarkovState leaves the engine's convoluted cost at the
        snapshot's value: a snapshot whose stored convoluted cost disagrees
        with its own lags leaves the engine inconsistent with its rebuilt
        history, and the caller's snapshot is overwritten. */
    method StaleConvolutionAfterRestore(snapshot: StateVector)
      requires Valid() && snapshot.values.Keys == markovState.Keys
      requires snapshot.values[Base(OperationalCostsConv)] != Dot(weights, LagValues(snapshot.values, |weights|))
      modifies this`markovState, buffer, buffer.data, snapshot
      ensures Valid()
      ensures markovState[Base(OperationalCostsConv)] != Dot(weights, buffer.Contents)
      ensures snapshot.values != old(snapshot.values)
    {
      SetMarkovState(snapshot);
    }

    /** setMarkovState writing the convoluted cost into the engine's own state
        and leaving the caller's snapshot alone: afterwards the convoluted cost
        agrees with the rebuilt history and every lag key mirrors its slot. */
    method SetMarkovStateIntended(snapshot: StateVector)
      requires Valid()
      requires snapshot.values.Keys == markovState.Keys
      modifies this`markovState, buffer, buffer.data
      ensures Valid() && LagsMirrorBuffer()
      ensures buffer.Contents == LagValues(snapshot.values, |weights|)
      ensures markovState == snapshot.values[Base(OperationalCostsConv) := Dot(weights, buffer.Contents)]
      ensures markovState[Base(OperationalCostsConv)] == Dot(weights, buffer.Contents)
    {
      ImportKeys(snapshot.values);
      var aggregated := RebuildHistory(snapshot.values);
      markovState := markovState[Base(OperationalCostsConv) := aggregated];
      assert HistoryValid() && markovState.Keys == old(markovState).Keys;
    }
  }

  /** Without the bootstrap, the first convoluted cost after reset is only the
      newest weight times the cost, while a fresh engine sees the sum of all
      weights times the cost: they differ whenever the older weights do not
      sum to zero and the cost is not zero. */
  lemma ColdStartDiffers(w: seq<real>, c: real)
    requires |w| > 0 && c != 0.0 && Sum(w[..|w| - 1]) != 0.0
    ensures Weighted(w[|w| - 1], c) != Weighted(Sum(w), c)
  {
    var older := Sum(w[..|w| - 1]);
    assert Sum(w) == older + w[|w| - 1];
    assert Weighted(Sum(w), c) - Weighted(w[|w| - 1], c) == older * c;
  }
}
