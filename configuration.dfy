/** Building the state key set and validating the configured bounds and
    initial values (IndustrialBenchmarkDynamics.init). */
module Configuration {
  import opened Wrappers
  import opened MarkovState

  /** Float.MAX_VALUE, the default bound of a variable without one. */
  const FloatMax: real := 340282346638528859811704183484516925440.0

  /** The configured "<KEY>_INIT", "<KEY>_MAX" and "<KEY>_MIN" entries; a key
      absent from a map is not configured. */
  datatype Config = Config(inits: map<Key, real>, maxs: map<Key, real>, mins: map<Key, real>)

  function InitOf(c: Config, k: Key): real { if k in c.inits then c.inits[k] else 0.0 }
  function MaxOf(c: Config, k: Key): real { if k in c.maxs then c.maxs[k] else FloatMax }
  function MinOf(c: Config, k: Key): real { if k in c.mins then c.mins[k] else -FloatMax }

  /** The two checks init makes per key: max > min, and init within [min, max]. */
  predicate KeyOk(c: Config, k: Key)
  {
    MaxOf(c, k) > MinOf(c, k) && MinOf(c, k) <= InitOf(c, k) <= MaxOf(c, k)
  }

  /** The configuration errors a bound check raises. */
  datatype ConfigError =
    | MaxNotAboveMin(key: Key, max: real, min: real)
    | InitOutOfRange(key: Key, init: real, min: real, max: real)

  function ErrorFor(c: Config, k: Key): ConfigError
  {
    if !(MaxOf(c, k) > MinOf(c, k)) then MaxNotAboveMin(k, MaxOf(c, k), MinOf(c, k))
    else InitOutOfRange(k, InitOf(c, k), MinOf(c, k), MaxOf(c, k))
  }

  /** The lower bounds, upper bounds and initial values of every key. */
  datatype Bounds = Bounds(mins: map<Key, real>, maxs: map<Key, real>, inits: map<Key, real>)

  /** The bounds loop of init: each key is checked in order and the first key
      that fails raises its error; when all pass, every key has max > min and
      an initial value within [min, max]. */
  method CheckBounds(keys: seq<Key>, c: Config) returns (r: Result<Bounds, ConfigError>)
    ensures r.Success? <==> forall i :: 0 <= i < |keys| ==> KeyOk(c, keys[i])
    ensures r.Success? ==>
              forall k :: (k in r.value.inits <==> k in keys) && (k in r.value.mins <==> k in keys)
                          && (k in r.value.maxs <==> k in keys)
    ensures r.Success? ==>
              forall k :: k in r.value.inits && k in r.value.mins && k in r.value.maxs ==>
                && r.value.mins[k] == MinOf(c, k) && r.value.maxs[k] == MaxOf(c, k)
                && r.value.inits[k] == InitOf(c, k)
                && r.value.mins[k] < r.value.maxs[k]
                && r.value.mins[k] <= r.value.inits[k] <= r.value.maxs[k]
    ensures r.Failure? ==>
              exists i :: 0 <= i < |keys| && !KeyOk(c, keys[i]) && r.error == ErrorFor(c, keys[i]) &&
                          forall j :: 0 <= j < i ==> KeyOk(c, keys[j])
  {
    var mins, maxs, inits := map[], map[], map[];
    var i := 0;
    while i < |keys|
      invariant 0 <= i <= |keys|
      invariant forall j :: 0 <= j < i ==> KeyOk(c, keys[j])
      invariant forall k :: (k in inits <==> k in keys[..i]) && (k in mins <==> k in keys[..i])
                             && (k in maxs <==> k in keys[..i])
      invariant forall k :: k in inits && k in mins && k in maxs ==>
                  mins[k] == MinOf(c, k) && maxs[k] == MaxOf(c, k) && inits[k] == InitOf(c, k)
    {
      var k := keys[i];
      var init, max, min := InitOf(c, k), MaxOf(c, k), MinOf(c, k);
      if !(max > min) || !(init >= min && init <= max) {
        return Failure(ErrorFor(c, k));
      }
      mins, maxs, inits := mins[k := min], maxs[k := max], inits[k := init];
      assert keys[..i + 1] == keys[..i] + [k];
      i := i + 1;
    }
    assert keys[..i] == keys;
    r := Success(Bounds(mins, maxs, inits));
  }

  /** The names contributed by the external drivers in init:
      each driver key not already reserved is added once, in driver order. */
  method CollectDriverKeys(driverKeys: seq<seq<Key>>, reserved: seq<Key>) returns (ext: seq<Key>)
    ensures forall i, j :: 0 <= i < j < |ext| ==> ext[i] != ext[j]
    ensures forall k :: k in ext ==> k !in reserved
    ensures forall d, k :: 0 <= d < |driverKeys| && k in driverKeys[d] ==> k in reserved || k in ext
    ensures forall k :: k in ext ==> exists d :: 0 <= d < |driverKeys| && k in driverKeys[d]
  {
    ext := [];
    var d := 0;
    while d < |driverKeys|
      invariant 0 <= d <= |driverKeys|
      invariant forall i, j :: 0 <= i < j < |ext| ==> ext[i] != ext[j]
      invariant forall k :: k in ext ==> k !in reserved
      invariant forall e, k :: 0 <= e < d && k in driverKeys[e] ==> k in reserved || k in ext
      invariant forall k :: k in ext ==> exists e :: 0 <= e < d && k in driverKeys[e]
    {
      var names := driverKeys[d];
      var n := 0;
      while n < |names|
        invariant 0 <= n <= |names|
        invariant forall i, j :: 0 <= i < j < |ext| ==> ext[i] != ext[j]
        invariant forall k :: k in ext ==> k !in reserved
        invariant forall e, k :: 0 <= e < d && k in driverKeys[e] ==> k in reserved || k in ext
        invariant forall k :: k in names[..n] ==> k in reserved || k in ext
        invariant forall k :: k in ext ==> exists e :: 0 <= e <= d && k in driverKeys[e]
      {
        var k := names[n];
        if k !in ext && k !in reserved {
          ext := ext + [k];
        }
        assert names[..n + 1] == names[..n] + [k];
        n := n + 1;
      }
      assert names[..n] == names;
      d := d + 1;
    }
  }

  /** The NaN pass at the end of init: every NaN left by the external drivers
      becomes 0, every number is kept, and no key is added or lost. */
  method ClearNaNs(keys: seq<Key>, s: map<Key, Reading>) returns (m: map<Key, real>)
    requires forall k :: k in s <==> k in keys
    ensures m.Keys == s.Keys
    ensures forall k :: k in s && s[k].NaN? ==> m[k] == 0.0
    ensures forall k :: k in s && s[k].Num? ==> m[k] == s[k].value
  {
    m := map[];
    var i := 0;
    while i < |keys|
      invariant 0 <= i <= |keys|
      invariant forall k :: k in m <==> k in keys[..i]
      invariant forall k :: k in m ==> m[k] == (if s[k].NaN? then 0.0 else s[k].value)
    {
      var k := keys[i];
      m := m[k := if s[k].NaN? then 0.0 else s[k].value];
      assert keys[..i + 1] == keys[..i] + [k];
      i := i + 1;
    }
    assert keys[..i] == keys;
  }
}
