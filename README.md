# Industrial benchmark dynamics: a Dafny model of the per-step engine

The industrial benchmark is a synthetic plant for reinforcement learning.
At each step the agent moves three set-points: velocity, gain and shift.
The engine `IndustrialBenchmarkDynamics` turns those moves into a hidden
Markovian state: fatigue, operational cost, miscalibration and the
signals derived from them. This project models the bookkeeping core of
that engine and proves what it guarantees:

- **Action folding** (`addAction`). A delta action moves each set-point
  by `delta * stepSize`. An absolute action moves it at most one step
  toward a target. Velocity and gain are clamped to their configured
  bounds, and shift to `[0, 100]` with its own per-step bound. Shift and
  setpoint then give the effective shift, clamped to `[-1.5, 1.5]`.
  The model proves:
  - the bounds hold, and the step limits hold;
  - the effective shift is zero exactly at the neutral shift
    `30 + 0.4 * setpoint`;
  - repeated commands reach the bound or the target.
- **Fatigue** (`updateFatigue`). Each actuator has a latent variable.
  While the actuator is acted upon and the latent is below 1.2, the
  latent is smoothed toward the noise. Once it reaches 1.2 it is
  amplified by 1.1 per step up to the cap 5 (the runaway regime). When
  the effective action is within the tolerance 0.05, the latent is reset
  to that action. The random draws and the effective-action scalars are
  inputs. The model proves:
  - the runaway regime is geometric and saturates within fifteen steps
    (fourteen are not enough from 1.2);
  - the "bad noise" branch is taken after an update exactly when an
    acted-upon latent's amplification `1.1 * latent` reaches the cap 5;
  - fatigue lies between a third of its base level and the full base
    level.
- **Operational-cost history** (`updateCurrentOperationalCost`,
  `updateOperationalCostCovolution`). This is a fixed-capacity FIFO ring
  buffer over an array, with one slot per convolution weight, plus the
  FIR convolution of its contents, oldest first. The first cost ever
  recorded fills the whole buffer; that bootstrap is controlled by the
  `convToInit` flag. The convolution is written to `OPERATIONALCOSTSCONV`
  and each slot to its lag key `OPERATIONALCOST_i`.
- **Configuration** (`init`). The key list is made of the lag names, the
  named internal variables and every new key of the external drivers.
  For each key, `max > min` and `min <= init <= max` are checked in
  order; the first violation is a configuration error. After the
  drivers' filter, every NaN becomes 0.
- **Snapshots** (`getMarkovState`, `setMarkovState`). A snapshot is
  imported key by key. The history is then rebuilt from its lag keys and
  the convolution recomputed.

The engine is a class. Its `markovState`, `mMin` and `mMax` are
`map<Key, real>` fields. Its history is a `CostBuffer` object that owns an
`array<real>`. Each step is a method whose `ensures` gives the whole new
state as a function of the old one. Pure functions and lemmas state and
prove what the source promises about those functions.

Two behaviours of the code are modelled as written and also recorded
under "Findings":

- `convToInit` is set only by the field initialiser and cleared after the
  first bootstrap. `reset()` therefore rebuilds a zero history that is
  never bootstrapped again.
- In `setMarkovState` the parameter shadows the field `markovState`. The
  recomputed convolution is therefore written into the caller's snapshot,
  not into the engine.

The comment at `addAction` says the shift scale is 10. The code computes
`2 * 1.5 + 100 * 0.02`, which is 5, and the model follows the code.

Files:

- `wrappers.dfy`: the `Result` and `Outcome` types.
- `numeric.dfy`: `Math.min`, `Math.max` and `Math.abs`.
- `state.dfy`: state keys, lag keys and the snapshot object.
- `action.dfy`: action folding.
- `fatigue.dfy`: the fatigue process.
- `convolution.dfy`: the ring buffer and the convolution.
- `configuration.dfy`: bound checks, driver keys and the NaN pass.
- `dynamics.dfy`: the engine class.

## Model

| member | source | states |
|---|---|---|
| ActionFolding.Clamp | src/main/java/com/siemens/industrialbenchmark/dynamics/IndustrialBenchmarkDynamics.java:286-288 | `min(hi, max(lo, x))` lies in `[lo, hi]` and is the identity on it |
| ActionFolding.LimitStep | src/main/java/com/siemens/industrialbenchmark/dynamics/IndustrialBenchmarkDynamics.java:291-296 | the requested difference is cut to `[-step, step]`, keeps its sign, never grows, and is unchanged when already within the step |
| ActionFolding.FoldDelta | src/main/java/com/siemens/industrialbenchmark/dynamics/IndustrialBenchmarkDynamics.java:299-301 | a delta command ends within the bounds and equals `v + delta*step` whenever that is within them |
| ActionFolding.FoldAbsolute | src/main/java/com/siemens/industrialbenchmark/dynamics/IndustrialBenchmarkDynamics.java:289-298 | an absolute command ends within the bounds, moves an in-bounds value by at most one step, never overshoots an in-bounds target, and reaches a target within one step exactly |
| ActionFolding.EffectiveShiftOf | src/main/java/com/siemens/industrialbenchmark/dynamics/IndustrialBenchmarkDynamics.java:325 | the effective shift lies in `[-1.5, 1.5]` and is zero exactly when `shift == 30 + 0.4*setpoint` |
| ActionFolding.ActuatorBounds | src/main/java/com/siemens/industrialbenchmark/dynamics/IndustrialBenchmarkDynamics.java:286-311 | for both kinds of action, velocity and gain end within their bounds; an absolute action moves an in-bounds value by at most its step size |
| ActionFolding.ShiftBounds | src/main/java/com/siemens/industrialbenchmark/dynamics/IndustrialBenchmarkDynamics.java:313-324 | shift always ends in `[0, 100]`; from within that range an absolute action moves it by at most the derived shift step |
| ActionFolding.MaximalDeltaReachesBound | src/main/java/com/siemens/industrialbenchmark/dynamics/IndustrialBenchmarkDynamics.java:286-288 | k repeated maximal delta commands, with `k*step` covering the distance, drive a set-point exactly to its upper bound |
| ActionFolding.AbsoluteReachesTarget | src/main/java/com/siemens/industrialbenchmark/dynamics/IndustrialBenchmarkDynamics.java:289-298 | k repeated absolute commands toward an in-bounds target, with `k*step` covering the distance, reach that target exactly |
| ActionFolding.EffectiveShiftMonotone | src/main/java/com/siemens/industrialbenchmark/dynamics/IndustrialBenchmarkDynamics.java:325 | the effective shift does not decrease as the shift grows or as the setpoint falls |
| FatigueProcess.SpikeProbability | src/main/java/com/siemens/industrialbenchmark/dynamics/IndustrialBenchmarkDynamics.java:363-365 | the Bernoulli probability is kept in `[0.001, 0.999]` and equals the effective action inside that range |
| FatigueProcess.SpikedNoise | src/main/java/com/siemens/industrialbenchmark/dynamics/IndustrialBenchmarkDynamics.java:364-365 | without a hit the noise is unchanged; for in-range inputs a spike keeps it in `[base, 1]` |
| FatigueProcess.LatentStep | src/main/java/com/siemens/industrialbenchmark/dynamics/IndustrialBenchmarkDynamics.java:367-386 | at or below the tolerance the latent resets to the effective action; otherwise from 1.2 on it is amplified by 1.1 capped at 5 (and stays at least 1.2), and below 1.2 it is smoothed to `0.9*latent + noise/3`; it never exceeds 5 for noise at most 1 and stays non-negative |
| FatigueProcess.BadNoiseOnlyInRunaway | src/main/java/com/siemens/industrialbenchmark/dynamics/IndustrialBenchmarkDynamics.java:388-395 | the bad-noise branch is taken after one update if and only if some actuator is acted upon and amplifying its latent reaches the cap |
| FatigueProcess.Dyn | src/main/java/com/siemens/industrialbenchmark/dynamics/IndustrialBenchmarkDynamics.java:389-395 | the driving signal is the bad noise in the runaway regime and otherwise at least both spiked noises, and lies in `[0, 1]` for in-range draws |
| FatigueProcess.FatigueBaseOf | src/main/java/com/siemens/industrialbenchmark/dynamics/IndustrialBenchmarkDynamics.java:402-405 | the base level is non-negative and equals the raw formula whenever that is non-negative |
| FatigueProcess.FatigueOf | src/main/java/com/siemens/industrialbenchmark/dynamics/IndustrialBenchmarkDynamics.java:406 | for dyn in `[0, 1]` and a non-negative base, fatigue lies between a third of the base and the base |
| FatigueProcess.FatigueStep | src/main/java/com/siemens/industrialbenchmark/dynamics/IndustrialBenchmarkDynamics.java:337-416 | one full update has a non-negative base level; for in-range draws and effective actions both latents stay at most 5 and fatigue lies between a third of the base and the base; a resting actuator's latent is its effective action |
| FatigueProcess.RunawayIsGeometric | src/main/java/com/siemens/industrialbenchmark/dynamics/IndustrialBenchmarkDynamics.java:368-378 | from a latent in `[1.2, 5]`, k acted-upon updates give `min(5, 1.1^k * latent)` whatever the noise |
| FatigueProcess.RunawaySaturates | src/main/java/com/siemens/industrialbenchmark/dynamics/IndustrialBenchmarkDynamics.java:368-378 | fifteen acted-upon updates from the amplification threshold on drive a latent to the cap 5 |
| FatigueProcess.PowFifteen | src/main/java/com/siemens/industrialbenchmark/dynamics/IndustrialBenchmarkDynamics.java:340-342 | with amplification 1.1, start 1.2 and cap 5, fifteen amplifications reach the cap and fourteen do not |
| CostHistory.DotRepeat | src/main/java/com/siemens/industrialbenchmark/dynamics/IndustrialBenchmarkDynamics.java:440-451 | a history of identical costs convolves to that cost times the sum of the weights |
| CostHistory.DotColdStart | src/main/java/com/siemens/industrialbenchmark/dynamics/IndustrialBenchmarkDynamics.java:440-451 | zeros followed by one newest cost convolve to the newest weight times that cost |
| CostHistory.CostBuffer.constructor | src/main/java/com/siemens/industrialbenchmark/dynamics/IndustrialBenchmarkDynamics.java:134 | a new buffer of the given positive capacity is empty |
| CostHistory.CostBuffer.Add | src/main/java/com/siemens/industrialbenchmark/dynamics/IndustrialBenchmarkDynamics.java:430 | adding appends the cost, evicting the oldest element when full; the ring invariant is kept |
| CostHistory.CostBuffer.Size | src/main/java/com/siemens/industrialbenchmark/dynamics/IndustrialBenchmarkDynamics.java:471 | the size is the number of elements held |
| CostHistory.CostBuffer.Get | src/main/java/com/siemens/industrialbenchmark/dynamics/IndustrialBenchmarkDynamics.java:443-445 | the i-th element in iteration order is the i-th oldest |
| MarkovState.LagKeys | src/main/java/com/siemens/industrialbenchmark/dynamics/IndustrialBenchmarkDynamics.java:135-138 | the lag names are `OPERATIONALCOST_0 ..  OPERATIONALCOST_(n-1)`, in order |
| MarkovState.LagValues | src/main/java/com/siemens/industrialbenchmark/dynamics/IndustrialBenchmarkDynamics.java:513-515 | the lag values of a state, oldest first, are the values of its lag keys |
| MarkovState.ExposeThenReadLags | src/main/java/com/siemens/industrialbenchmark/dynamics/IndustrialBenchmarkDynamics.java:444-449 | exposing the history as lag keys and reading the lags back gives the history, and every other key keeps its value |
| Configuration.CheckBounds | src/main/java/com/siemens/industrialbenchmark/dynamics/IndustrialBenchmarkDynamics.java:158-168 | succeeds if and only if every key has `max > min` and `min <= init <= max`; on success every key gets exactly its configured (or default) bounds and initial value; on failure the error names the first failing key in order |
| Configuration.CollectDriverKeys | src/main/java/com/siemens/industrialbenchmark/dynamics/IndustrialBenchmarkDynamics.java:141-150 | the driver keys added are distinct, none is reserved, each comes from some driver, and every driver key is reserved or added |
| Configuration.ClearNaNs | src/main/java/com/siemens/industrialbenchmark/dynamics/IndustrialBenchmarkDynamics.java:181-186 | no key is added or lost, every NaN becomes 0 and every number is kept |
| Dynamics.KeyListFacts | src/main/java/com/siemens/industrialbenchmark/dynamics/IndustrialBenchmarkDynamics.java:133-150 | the key list holds every lag and every named variable, and each of its keys is a lag, a named variable or a driver key |
| Dynamics.NamedKeysFacts | src/main/java/com/siemens/industrialbenchmark/dynamics/IndustrialBenchmarkDynamics.java:139 | the named internal variables contribute every named key and nothing else |
| Dynamics.IndustrialBenchmarkDynamics.constructor | src/main/java/com/siemens/industrialbenchmark/dynamics/IndustrialBenchmarkDynamics.java:96-100 | the step sizes are set, the bootstrap flag is armed and there is no history yet |
| Dynamics.IndustrialBenchmarkDynamics.Create | src/main/java/com/siemens/industrialbenchmark/dynamics/IndustrialBenchmarkDynamics.java:96-111 | the engine after the constructor's setup and init, before its zero-action step: valid, with a zero history of one slot per weight and an armed bootstrap flag |
| Dynamics.IndustrialBenchmarkDynamics.Init | src/main/java/com/siemens/industrialbenchmark/dynamics/IndustrialBenchmarkDynamics.java:128-193 | on success: a valid engine and a zero history; the key set holds every driver key and only keys that are a lag, a named variable or a driver key; every key has its configured bounds, its configured initial value passes both checks, and its value is the driver's write, 0 for a NaN write, or that initial value; on failure: a bound violation of some key of the key list; the bootstrap flag is never re-armed |
| Dynamics.IndustrialBenchmarkDynamics.Configure | src/main/java/com/siemens/industrialbenchmark/dynamics/IndustrialBenchmarkDynamics.java:133-186 | the zero history, and either the bounds and initial values of exactly the key list (every lag, named variable and driver key, and nothing else) or a bound violation of some key |
| Dynamics.IndustrialBenchmarkDynamics.Install | src/main/java/com/siemens/industrialbenchmark/dynamics/IndustrialBenchmarkDynamics.java:154-168 | the checked bounds, initial state and history become the engine's, which is then valid; nothing else changes |
| Dynamics.IndustrialBenchmarkDynamics.ConfigureState | src/main/java/com/siemens/industrialbenchmark/dynamics/IndustrialBenchmarkDynamics.java:158-186 | on success the state and bounds share the key list's keys, every key passes both checks and holds the driver's value, 0 for NaN, or its configured initial value; on failure some key fails a check |
| Dynamics.IndustrialBenchmarkDynamics.StateKeys | src/main/java/com/siemens/industrialbenchmark/dynamics/IndustrialBenchmarkDynamics.java:133-150 | the key list holds every lag, every named variable and every driver key, and nothing without such an origin |
| Dynamics.IndustrialBenchmarkDynamics.ZeroHistory | src/main/java/com/siemens/industrialbenchmark/dynamics/IndustrialBenchmarkDynamics.java:133-138 | a fresh full history of n zeros and the n lag names |
| Dynamics.IndustrialBenchmarkDynamics.Reset | src/main/java/com/siemens/industrialbenchmark/dynamics/IndustrialBenchmarkDynamics.java:529-536 | reset is init again, with everything init promises: on success a valid engine, a zero history, exactly the key list, the configured bounds and the initial values as the drivers and the NaN pass leave them; on failure a bound violation of some key; the bootstrap flag keeps the value it had |
| Dynamics.IndustrialBenchmarkDynamics.AddAction | src/main/java/com/siemens/industrialbenchmark/dynamics/IndustrialBenchmarkDynamics.java:284-331 | velocity, gain, shift and effective shift become their folded values, within their bounds; every other key keeps its value |
| Dynamics.IndustrialBenchmarkDynamics.UpdateFatigue | src/main/java/com/siemens/industrialbenchmark/dynamics/IndustrialBenchmarkDynamics.java:337-416 | exactly the six fatigue keys take the values of one fatigue update; the base level is non-negative and a resting actuator's latent is its effective action |
| Dynamics.IndustrialBenchmarkDynamics.UpdateCurrentOperationalCost | src/main/java/com/siemens/industrialbenchmark/dynamics/IndustrialBenchmarkDynamics.java:418-438 | the current cost is recorded; with the flag armed the whole history becomes that cost, otherwise it slides by one; the flag ends cleared |
| Dynamics.IndustrialBenchmarkDynamics.FillRest | src/main/java/com/siemens/industrialbenchmark/dynamics/IndustrialBenchmarkDynamics.java:432-437 | after the first add, size - 1 more adds of the same cost leave every slot holding it |
| Dynamics.IndustrialBenchmarkDynamics.UpdateOperationalCostConvolution | src/main/java/com/siemens/industrialbenchmark/dynamics/IndustrialBenchmarkDynamics.java:440-451 | the convoluted cost becomes the weighted sum of the history and every lag key mirrors its slot; nothing else changes |
| Dynamics.IndustrialBenchmarkDynamics.ExposeHistory | src/main/java/com/siemens/industrialbenchmark/dynamics/IndustrialBenchmarkDynamics.java:441-449 | the loop computes the full weighted sum and writes every slot to its lag key |
| Dynamics.IndustrialBenchmarkDynamics.GetOperationalCostsHistoryLength | src/main/java/com/siemens/industrialbenchmark/dynamics/IndustrialBenchmarkDynamics.java:470-472 | the history length is always the number of weights, which is positive |
| Dynamics.IndustrialBenchmarkDynamics.GetMarkovState | src/main/java/com/siemens/industrialbenchmark/dynamics/IndustrialBenchmarkDynamics.java:480-487 | a fresh copy of the full state |
| Dynamics.IndustrialBenchmarkDynamics.SetMarkovState | src/main/java/com/siemens/industrialbenchmark/dynamics/IndustrialBenchmarkDynamics.java:496-527 | the engine's state becomes the snapshot's values, the history becomes the snapshot's lags in order, and the convoluted cost of those lags is written into the snapshot |
| Dynamics.IndustrialBenchmarkDynamics.ImportKeys | src/main/java/com/siemens/industrialbenchmark/dynamics/IndustrialBenchmarkDynamics.java:498-501 | importing every key of a snapshot with the same key set makes the state equal to it |
| Dynamics.IndustrialBenchmarkDynamics.RebuildHistory | src/main/java/com/siemens/industrialbenchmark/dynamics/IndustrialBenchmarkDynamics.java:511-519 | the history becomes the lag values in order and the sum is their convolution |
| Dynamics.IndustrialBenchmarkDynamics.RefillFromLags | src/main/java/com/siemens/industrialbenchmark/dynamics/IndustrialBenchmarkDynamics.java:512-518 | n adds of the lag values push out the whole old history and accumulate their weighted sum |
| Dynamics.IndustrialBenchmarkDynamics.SnapshotRoundTrip | src/main/java/com/siemens/industrialbenchmark/dynamics/IndustrialBenchmarkDynamics.java:480-519 | restoring a snapshot just taken, when the lag keys mirror the history, changes neither the state nor the history |
| Dynamics.IndustrialBenchmarkDynamics.ColdCostStep | src/main/java/com/siemens/industrialbenchmark/dynamics/IndustrialBenchmarkDynamics.java:418-451 | with the flag cleared, a zero history holds zeros and the new cost afterwards, and the convolution is the newest weight times that cost |
| Dynamics.IndustrialBenchmarkDynamics.FirstCostAfterReset | src/main/java/com/siemens/industrialbenchmark/dynamics/IndustrialBenchmarkDynamics.java:529-536 | after reset of an engine that has stepped, the first cost is not bootstrapped: zeros and that cost, convolved by the newest weight only |
| Dynamics.IndustrialBenchmarkDynamics.ResetRearmed | src/main/java/com/siemens/industrialbenchmark/dynamics/IndustrialBenchmarkDynamics.java:529-536 | reset that re-arms the bootstrap flag: a valid engine with a zero history and an armed flag |
| Dynamics.IndustrialBenchmarkDynamics.BootstrapCostStep | src/main/java/com/siemens/industrialbenchmark/dynamics/IndustrialBenchmarkDynamics.java:430-450 | with the flag armed, the history fills with the new cost and the convolution is the sum of the weights times that cost |
| Dynamics.IndustrialBenchmarkDynamics.FirstCostAfterRearmedReset | src/main/java/com/siemens/industrialbenchmark/dynamics/IndustrialBenchmarkDynamics.java:529-536 | after the corrected reset, the first cost fills the history as on a fresh engine |
| Dynamics.IndustrialBenchmarkDynamics.StaleConvolutionAfterRestore | src/main/java/com/siemens/industrialbenchmark/dynamics/IndustrialBenchmarkDynamics.java:512-519 | when a snapshot's stored convoluted cost disagrees with its lags, the engine after restore keeps that stale value, disagreeing with its rebuilt history, and the caller's snapshot is changed |
| Dynamics.IndustrialBenchmarkDynamics.SetMarkovStateIntended | src/main/java/com/siemens/industrialbenchmark/dynamics/IndustrialBenchmarkDynamics.java:496-527 | restore writing into the engine: the convoluted cost agrees with the rebuilt history and every lag key mirrors its slot |
| Dynamics.ColdStartDiffers | src/main/java/com/siemens/industrialbenchmark/dynamics/IndustrialBenchmarkDynamics.java:432-450 | the cold-start convolution differs from the bootstrapped one whenever the cost is non-zero and the older weights do not sum to zero |

## Left out

- Step orchestration (`step`), the miscalibration environment (`updateGS`), the consumption signal (`updateOperationalCosts`), the reward (`getReward`, `mRewardCore.calcReward`) and the observable projection (`getState`): they depend on classes that are not part of this model, or on random draws.
- Random number generation and seeding (`randomSeed`, `rda`, `SEED`, the drivers' seeds): the draws of one fatigue update are a parameter (`FatigueDraws`), and the seed bookkeeping of `setMarkovState` is not modelled.
- `Math.exp`, the logistic squashing of the noise and the `EffectiveAction` scalars alpha and beta: the cost step takes `exp` as a function parameter, and the fatigue step takes alpha, beta and the squashed draws as inputs.
- Floating point: values are exact reals. The `(float)` casts of shift, effective shift and cost are not modelled. The float constants (1.1, 0.9, 0.02, ...) are their decimal values.
- ActionFolding.MaxRequiredStep: the single-precision value of `sin(15°)` is rounded to eight decimals. Only its positivity matters to the proved properties.
- Reading the configuration (`PropertiesUtil`, `getFloatArray`, the `CRGS` and `ConvArray` entries): the weights, `crgs` and the `<KEY>_INIT/_MAX/_MIN` entries are parameters. A missing or unparsable entry is not modelled.
- External drivers: their key lists and the values their filter writes are parameters (`driverKeys`, `driverWrites`). A write to a key outside the state is ignored. `setConfiguration` at the end of `setMarkovState` is not modelled. `MarkovianStateDescription` is not part of this model: its named variables are the `Var` datatype.
- Dynamics.IndustrialBenchmarkDynamics.Init: on failure the model keeps the engine's previous `markovState`, `mMin` and `mMax`. In Java, new maps over the new key set have already replaced them before the bound loop, and the keys checked before the failing one hold their new values. The contract names some failing key of the key list, not the first one in order; `CheckBounds` states that it is the first.
- Dynamics.IndustrialBenchmarkDynamics.Init: the values the external drivers write are not re-checked against the bounds (neither are they in Java), so the contract bounds the configured initial values, not the state after the drivers' filter.
- Dynamics.IndustrialBenchmarkDynamics.Init: requires at least one weight, because the ring buffer needs a positive capacity. The zero-length case is not modelled.
- Dynamics.IndustrialBenchmarkDynamics.UpdateFatigue: requires `DVelocity*velocity + DSetPoint != 0`. With a zero denominator Java would produce an infinity or NaN, which reals cannot represent.
- Dynamics.IndustrialBenchmarkDynamics.SetMarkovState: requires the snapshot to have the engine's key set. The model does not cover a snapshot with missing keys (lag reads would fail) or extra keys (unknown-key error).
- Dynamics.IndustrialBenchmarkDynamics.SetMarkovState: the control position, domain, system response and phi index handed to the miscalibration environment are not modelled.
- Error reporting in `reset`: a missing `CRGS` or `ConvArray` entry raises a `PropertiesException`, which `reset` prints and swallows; reading the configuration is not modelled, so that path is absent. A bound violation is an `IllegalArgumentException` that `reset` does not catch, and the model returns it as the error `Fail`.
- Dynamics.IndustrialBenchmarkDynamics.Create: the constructor's trailing `step(zeroAction)` is not modelled (step orchestration is left out). The result is the engine between `init` and that step: its history is all zeros and its bootstrap flag armed, whereas the Java constructor returns after the step has bootstrapped the history and cleared the flag.

## Findings

| source | as written | input that shows it | evidently intended | confidence | as-written member | corrected member |
|---|---|---|---|---|---|---|
| src/main/java/com/siemens/industrialbenchmark/dynamics/IndustrialBenchmarkDynamics.java:529-536 | `reset()` re-runs `init()`, which rebuilds a zero history but never re-arms `convToInit` (only set at line 64, cleared at line 436) | weights `[0.5, 0.5]`, any step before reset, first cost after reset 1.0: the convolution is 0.5 instead of 1.0 | reset behaves like a freshly constructed engine, so the first cost after reset bootstraps the history | medium, not executed | Dynamics.IndustrialBenchmarkDynamics.FirstCostAfterReset | Dynamics.IndustrialBenchmarkDynamics.FirstCostAfterRearmedReset |
| src/main/java/com/siemens/industrialbenchmark/dynamics/IndustrialBenchmarkDynamics.java:496-527 | the parameter `markovState` shadows the field, so the recomputed convolution (line 519) is written into the caller's snapshot, and the engine keeps the snapshot's stored value | a snapshot whose `OPERATIONALCOST_i` lags were edited after it was taken: the engine's convoluted cost disagrees with its rebuilt history, and the caller's object is modified | the convoluted cost is recomputed into the engine's own state, and the snapshot is left alone | medium, not executed | Dynamics.IndustrialBenchmarkDynamics.StaleConvolutionAfterRestore | Dynamics.IndustrialBenchmarkDynamics.SetMarkovStateIntended |
