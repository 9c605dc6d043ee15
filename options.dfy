/**
 * The options of the definitions library and the fluent builder that fills
 * them in. Both are mutable objects: the builder's setters assign one field of
 * the shared options object and return the builder itself.
 */
module Options {
  import opened Wrappers

  /** How module contract versions would be compared; declared, never enforced. */
  datatype VersionCompatibilityStrategy = Exact | Major

  /** A user callback; `NoOp` is the library's default do-nothing action. */
  datatype Callback = NoOp | UserAction(id: nat)

  /** A configuration override is keyed by (module name, setting key). */
  type OverrideKey = (string, string)

  /** The value of the overrides map after one `OverrideSetting(moduleName, key, value)`. */
  function WithOverride(overrides: map<OverrideKey, string>, moduleName: string, key: string, value: string): (r: map<OverrideKey, string>)
    ensures (moduleName, key) in r && r[(moduleName, key)] == value
    ensures r.Keys == overrides.Keys + {(moduleName, key)}
    ensures forall k :: k in overrides && k != (moduleName, key) ==> r[k] == overrides[k]
  {
    overrides[(moduleName, key) := value]
  }

  /** A sequence of overrides applied in order: `(module, key, value)` triples. */
  function ApplyOverrides(overrides: map<OverrideKey, string>, calls: seq<(string, string, string)>): map<OverrideKey, string>
    decreases |calls|
  {
    if calls == [] then overrides
    else
      var c := calls[|calls| - 1];
      WithOverride(ApplyOverrides(overrides, calls[..|calls| - 1]), c.0, c.1, c.2)
  }

  /** Call `i` of an override sequence names `k`. */
  predicate Names(calls: seq<(string, string, string)>, i: int, k: OverrideKey) {
    0 <= i < |calls| && (calls[i].0, calls[i].1) == k
  }

  /** Call `i` is the last one that names `k`. */
  predicate LastCallFor(calls: seq<(string, string, string)>, k: OverrideKey, i: int) {
    Names(calls, i, k) && forall j :: i < j < |calls| ==> !Names(calls, j, k)
  }

  /** After a sequence of overrides, the keys are the old ones plus every key some call named. */
  lemma {:induction false} OverrideKeys(overrides: map<OverrideKey, string>, calls: seq<(string, string, string)>, k: OverrideKey)
    ensures k in ApplyOverrides(overrides, calls) <==> k in overrides || exists i :: Names(calls, i, k)
    decreases |calls|
  {
    if calls != [] {
      var init := calls[..|calls| - 1];
      var c := calls[|calls| - 1];
      OverrideKeys(overrides, init, k);
      var r := ApplyOverrides(overrides, calls);
      assert r == WithOverride(ApplyOverrides(overrides, init), c.0, c.1, c.2);
      if (c.0, c.1) == k {
        assert Names(calls, |calls| - 1, k);
      } else if k in r {
        if k !in overrides {
          var i :| Names(init, i, k);
          assert init[i] == calls[i];
          assert Names(calls, i, k);
        }
      } else {
        forall i | 0 <= i < |calls| ensures !Names(calls, i, k) {
          if i < |init| {
            assert init[i] == calls[i];
            assert !Names(init, i, k);
          }
        }
      }
    }
  }

  /** A key no call names keeps its old value. */
  lemma {:induction false} UnnamedOverrideKept(overrides: map<OverrideKey, string>, calls: seq<(string, string, string)>, k: OverrideKey)
    requires k in overrides && forall i :: 0 <= i < |calls| ==> !Names(calls, i, k)
    ensures k in ApplyOverrides(overrides, calls) && ApplyOverrides(overrides, calls)[k] == overrides[k]
    decreases |calls|
  {
    if calls != [] {
      var init := calls[..|calls| - 1];
      forall i | 0 <= i < |init| ensures !Names(init, i, k) {
        assert init[i] == calls[i] && !Names(calls, i, k);
      }
      UnnamedOverrideKept(overrides, init, k);
      assert !Names(calls, |calls| - 1, k);
    }
  }

  /** Last write wins: a named key holds the value of the last call that named it. */
  lemma {:induction false} LastOverrideWins(overrides: map<OverrideKey, string>, calls: seq<(string, string, string)>, k: OverrideKey, i: int)
    requires LastCallFor(calls, k, i)
    ensures k in ApplyOverrides(overrides, calls) && ApplyOverrides(overrides, calls)[k] == calls[i].2
    decreases |calls|
  {
    if i < |calls| - 1 {
      var init := calls[..|calls| - 1];
      assert !Names(calls, |calls| - 1, k);
      forall j | i < j < |init| ensures !Names(init, j, k) {
        assert init[j] == calls[j] && !Names(calls, j, k);
      }
      LastOverrideWins(overrides, init, k, i);
    }
  }

  /** `DefinitionsOptions`: what the builder collects and the registration pipeline reads. */
  class DefinitionsOptions {
    /** `None` stands for a null array assigned through the builder. */
    var assemblyPaths: Option<seq<string>>
    var criticalModules: Option<seq<string>>
    var preLoadAction: Option<Callback>
    var onModuleLoaded: Option<Callback>
    var configurationOverrides: map<OverrideKey, string>
    var versionCompatibility: VersionCompatibilityStrategy

    /** Empty arrays, no-op callbacks, no overrides and the `Exact` strategy. */
    constructor ()
      ensures assemblyPaths == Some([]) && criticalModules == Some([])
      ensures preLoadAction == Some(NoOp) && onModuleLoaded == Some(NoOp)
      ensures configurationOverrides == map[]
      ensures versionCompatibility == Exact
    {
      assemblyPaths := Some([]);
      criticalModules := Some([]);
      preLoadAction := Some(NoOp);
      onModuleLoaded := Some(NoOp);
      configurationOverrides := map[];
      versionCompatibility := Exact;
    }

    /** Sets the `(moduleName, key)` override, replacing an earlier one; nothing else changes. */
    method OverrideSetting(moduleName: string, key: string, value: string)
      modifies this
      ensures configurationOverrides == WithOverride(old(configurationOverrides), moduleName, key, value)
      ensures assemblyPaths == old(assemblyPaths) && criticalModules == old(criticalModules)
      ensures preLoadAction == old(preLoadAction) && onModuleLoaded == old(onModuleLoaded)
      ensures versionCompatibility == old(versionCompatibility)
    {
      configurationOverrides := configurationOverrides[(moduleName, key) := value];
    }
  }

  /** `DefinitionsLibraryBuilder`: fluent setters over one options object fixed at construction. */
  class DefinitionsLibraryBuilder {
    const options: DefinitionsOptions

    constructor ()
      ensures fresh(options)
      ensures options.assemblyPaths == Some([]) && options.criticalModules == Some([])
      ensures options.preLoadAction == Some(NoOp) && options.onModuleLoaded == Some(NoOp)
      ensures options.configurationOverrides == map[]
      ensures options.versionCompatibility == Exact
    {
      options := new DefinitionsOptions();
    }

    /** Replaces the whole path array (it does not append). */
    method WithAssemblyPaths(paths: Option<seq<string>>) returns (r: DefinitionsLibraryBuilder)
      modifies options
      ensures r == this
      ensures options.assemblyPaths == paths
      ensures options.criticalModules == old(options.criticalModules)
      ensures options.preLoadAction == old(options.preLoadAction) && options.onModuleLoaded == old(options.onModuleLoaded)
      ensures options.configurationOverrides == old(options.configurationOverrides)
      ensures options.versionCompatibility == old(options.versionCompatibility)
    {
      options.assemblyPaths := paths;
      return this;
    }

    /** Replaces the critical-module array. */
    method WithCriticalModules(names: Option<seq<string>>) returns (r: DefinitionsLibraryBuilder)
      modifies options
      ensures r == this
      ensures options.criticalModules == names
      ensures options.assemblyPaths == old(options.assemblyPaths)
      ensures options.preLoadAction == old(options.preLoadAction) && options.onModuleLoaded == old(options.onModuleLoaded)
      ensures options.configurationOverrides == old(options.configurationOverrides)
      ensures options.versionCompatibility == old(options.versionCompatibility)
    {
      options.criticalModules := names;
      return this;
    }

    /** Replaces the pre-load callback. */
    method WithPreLoadAction(action: Option<Callback>) returns (r: DefinitionsLibraryBuilder)
      modifies options
      ensures r == this
      ensures options.preLoadAction == action
      ensures options.assemblyPaths == old(options.assemblyPaths) && options.criticalModules == old(options.criticalModules)
      ensures options.onModuleLoaded == old(options.onModuleLoaded)
      ensures options.configurationOverrides == old(options.configurationOverrides)
      ensures options.versionCompatibility == old(options.versionCompatibility)
    {
      options.preLoadAction := action;
      return this;
    }

    /** Replaces the module-loaded callback. */
    method WithOnModuleLoadedAction(action: Option<Callback>) returns (r: DefinitionsLibraryBuilder)
      modifies options
      ensures r == this
      ensures options.onModuleLoaded == action
      ensures options.assemblyPaths == old(options.assemblyPaths) && options.criticalModules == old(options.criticalModules)
      ensures options.preLoadAction == old(options.preLoadAction)
      ensures options.configurationOverrides == old(options.configurationOverrides)
      ensures options.versionCompatibility == old(options.versionCompatibility)
    {
      options.onModuleLoaded := action;
      return this;
    }

    /** Exactly the effect of `OverrideSetting` on the options. */
    method OverrideModuleSetting(moduleName: string, key: string, value: string) returns (r: DefinitionsLibraryBuilder)
      modifies options
      ensures r == this
      ensures options.configurationOverrides == WithOverride(old(options.configurationOverrides), moduleName, key, value)
      ensures options.assemblyPaths == old(options.assemblyPaths) && options.criticalModules == old(options.criticalModules)
      ensures options.preLoadAction == old(options.preLoadAction) && options.onModuleLoaded == old(options.onModuleLoaded)
      ensures options.versionCompatibility == old(options.versionCompatibility)
    {
      options.OverrideSetting(moduleName, key, value);
      return this;
    }
  }
}
