/**
 * The in-memory configuration source that carries module overrides: each
 * `(module, key) -> value` override becomes the flat setting
 * `"module:key" -> value`. It is layered after the application's own
 * configuration, so the last layer holding a key wins.
 */
module MemoryConfig {
  import opened Wrappers
  import opened Options

  /** The flat configuration key of an override: `"module:key"`. */
  function FlatKey(k: OverrideKey): string {
    k.0 + ":" + k.1
  }

  /** `order` lists every override key exactly once: the dictionary's enumeration order. */
  ghost predicate EnumeratesKeys(overrides: map<OverrideKey, string>, order: seq<OverrideKey>) {
    (forall k :: k in overrides <==> k in order) &&
    (forall i, j :: 0 <= i < j < |order| ==> order[i] != order[j])
  }

  /** The settings after storing the overrides of `order` one by one; a later colliding key overwrites. */
  function Flatten(overrides: map<OverrideKey, string>, order: seq<OverrideKey>): map<string, string>
    requires forall k :: k in order ==> k in overrides
    decreases |order|
  {
    if order == [] then map[]
    else
      var last := order[|order| - 1];
      Flatten(overrides, order[..|order| - 1])[FlatKey(last) := overrides[last]]
  }

  /** The flat keys are exactly the flattened override keys. */
  lemma {:induction false} FlattenKeys(overrides: map<OverrideKey, string>, order: seq<OverrideKey>, s: string)
    requires forall k :: k in order ==> k in overrides
    ensures s in Flatten(overrides, order) <==> exists i :: 0 <= i < |order| && FlatKey(order[i]) == s
    decreases |order|
  {
    if order != [] {
      var init := order[..|order| - 1];
      FlattenKeys(overrides, init, s);
      if s != FlatKey(order[|order| - 1]) {
        if exists i :: 0 <= i < |order| && FlatKey(order[i]) == s {
          var i :| 0 <= i < |order| && FlatKey(order[i]) == s;
          assert i < |init| && init[i] == order[i];
        }
        if exists i :: 0 <= i < |init| && FlatKey(init[i]) == s {
          var i :| 0 <= i < |init| && FlatKey(init[i]) == s;
          assert init[i] == order[i];
        }
      }
    }
  }

  /** An override whose flat key collides with no later one is stored with its own value. */
  lemma {:induction false} FlattenValue(overrides: map<OverrideKey, string>, order: seq<OverrideKey>, i: int)
    requires forall k :: k in order ==> k in overrides
    requires 0 <= i < |order|
    requires forall j :: i < j < |order| ==> FlatKey(order[j]) != FlatKey(order[i])
    ensures FlatKey(order[i]) in Flatten(overrides, order)
    ensures Flatten(overrides, order)[FlatKey(order[i])] == overrides[order[i]]
    decreases |order|
  {
    if i < |order| - 1 {
      var init := order[..|order| - 1];
      assert init[i] == order[i];
      forall j | i < j < |init| ensures FlatKey(init[j]) != FlatKey(init[i]) {
        assert init[j] == order[j];
      }
      FlattenValue(overrides, init, i);
    }
  }

  /** There are never more settings than overrides. */
  lemma {:induction false} FlattenSizeBound(overrides: map<OverrideKey, string>, order: seq<OverrideKey>)
    requires forall k :: k in order ==> k in overrides
    ensures |Flatten(overrides, order)| <= |order|
    decreases |order|
  {
    if order != [] {
      FlattenSizeBound(overrides, order[..|order| - 1]);
    }
  }

  /** With no two overrides flattening to the same string, there are exactly as many settings as overrides. */
  lemma {:induction false} FlattenSizeExact(overrides: map<OverrideKey, string>, order: seq<OverrideKey>)
    requires forall k :: k in order ==> k in overrides
    requires forall i, j :: 0 <= i < j < |order| ==> FlatKey(order[i]) != FlatKey(order[j])
    ensures |Flatten(overrides, order)| == |order|
    decreases |order|
  {
    if order != [] {
      var init := order[..|order| - 1];
      FlattenSizeExact(overrides, init);
      var last := FlatKey(order[|order| - 1]);
      FlattenKeys(overrides, init, last);
      forall i | 0 <= i < |init| ensures FlatKey(init[i]) != last {
        assert init[i] == order[i];
      }
      assert last !in Flatten(overrides, init);
    }
  }

  /** `("a:b", "c")` and `("a", "b:c")` collide on `"a:b:c"`: the one enumerated last wins. */
  lemma CollidingOverrides()
    ensures var o := map[("a:b", "c") := "first", ("a", "b:c") := "second"];
      Flatten(o, [("a:b", "c"), ("a", "b:c")]) == map["a:b:c" := "second"] &&
      Flatten(o, [("a", "b:c"), ("a:b", "c")]) == map["a:b:c" := "first"]
  {
    var o := map[("a:b", "c") := "first", ("a", "b:c") := "second"];
    assert FlatKey(("a:b", "c")) == "a:b:c";
    assert FlatKey(("a", "b:c")) == "a:b:c";
    assert [("a:b", "c"), ("a", "b:c")][..1] == [("a:b", "c")];
    assert [("a", "b:c"), ("a:b", "c")][..1] == [("a", "b:c")];
  }

  /** `MemoryConfigurationProvider`: a provider over exactly the given settings. */
  datatype MemoryConfigurationProvider = MemoryConfigurationProvider(data: map<string, string>)

  /** `MemoryConfigurationSource`: the settings are filled once, by the constructor's loop. */
  class MemoryConfigurationSource {
    const settings: map<string, string>

    /** Stores every override under its flat key, in the dictionary's enumeration order. */
    constructor (overrides: map<OverrideKey, string>, order: seq<OverrideKey>)
      requires EnumeratesKeys(overrides, order)
      ensures settings == Flatten(overrides, order)
    {
      var s: map<string, string> := map[];
      var i := 0;
      while i < |order|
        invariant 0 <= i <= |order|
        invariant s == Flatten(overrides, order[..i])
      {
        assert order[..i + 1][..i] == order[..i];
        s := s[FlatKey(order[i]) := overrides[order[i]]];
        i := i + 1;
      }
      assert order[..|order|] == order;
      settings := s;
    }

    /** The provider serves exactly the stored settings. */
    method Build() returns (p: MemoryConfigurationProvider)
      ensures p.data == settings
    {
      p := MemoryConfigurationProvider(settings);
    }
  }

  /** A layered configuration: a later layer overrides an earlier one. */
  type Configuration = seq<map<string, string>>

  /** The value of a key: from the last layer that holds it. */
  function Lookup(config: Configuration, key: string): (r: Option<string>)
    decreases |config|
  {
    if config == [] then None
    else if key in config[|config| - 1] then Some(config[|config| - 1][key])
    else Lookup(config[..|config| - 1], key)
  }

  /** A module's section: its settings are the keys prefixed by `"<module>:"`. */
  function SectionValue(config: Configuration, moduleName: string, key: string): Option<string> {
    Lookup(config, moduleName + ":" + key)
  }

  /** Layer `i` is the last layer that holds `key`. */
  predicate LastLayerWith(config: Configuration, key: string, i: int) {
    0 <= i < |config| && key in config[i] && forall j :: i < j < |config| ==> key !in config[j]
  }

  /** `Lookup` finds a key iff some layer holds it. */
  lemma {:induction false} LookupFindsHeldKeys(config: Configuration, key: string)
    ensures Lookup(config, key).Some? <==> exists i :: 0 <= i < |config| && key in config[i]
    decreases |config|
  {
    if config != [] {
      var init := config[..|config| - 1];
      LookupFindsHeldKeys(init, key);
      if exists i :: 0 <= i < |init| && key in init[i] {
        var i :| 0 <= i < |init| && key in init[i];
        assert config[i] == init[i];
      }
      if exists i :: 0 <= i < |config| && key in config[i] {
        var i :| 0 <= i < |config| && key in config[i];
        if i < |init| {
          assert init[i] == config[i];
        }
      }
    }
  }

  /** `Lookup` answers from the last layer that holds the key. */
  lemma {:induction false} LookupLastLayerWins(config: Configuration, key: string, i: int)
    requires LastLayerWith(config, key, i)
    ensures Lookup(config, key) == Some(config[i][key])
    decreases |config|
  {
    var init := config[..|config| - 1];
    if i < |config| - 1 {
      assert init[i] == config[i];
      forall j | i < j < |init| ensures key !in init[j] {
        assert init[j] == config[j];
      }
      LookupLastLayerWins(init, key, i);
    }
  }

  /**
   * The configuration handed to modules: the application's configuration,
   * then the flattened overrides; an override therefore wins in the module's
   * section, and a key nobody overrode keeps the application's value.
   */
  lemma OverrideTakesPrecedence(base: map<string, string>, overrides: map<OverrideKey, string>, order: seq<OverrideKey>,
                                moduleName: string, key: string)
    requires EnumeratesKeys(overrides, order)
    requires forall k :: k in overrides && k != (moduleName, key) ==> FlatKey(k) != FlatKey((moduleName, key))
    ensures (moduleName, key) in overrides ==>
      SectionValue([base, Flatten(overrides, order)], moduleName, key) == Some(overrides[(moduleName, key)])
    ensures (moduleName, key) !in overrides ==>
      SectionValue([base, Flatten(overrides, order)], moduleName, key) ==
        (if FlatKey((moduleName, key)) in base then Some(base[FlatKey((moduleName, key))]) else None)
  {
    var flat := FlatKey((moduleName, key));
    assert moduleName + ":" + key == flat;
    FlattenKeys(overrides, order, flat);
    if (moduleName, key) in overrides {
      var i :| 0 <= i < |order| && order[i] == (moduleName, key);
      forall j | i < j < |order| ensures FlatKey(order[j]) != FlatKey(order[i]) {
        assert order[j] in overrides && order[j] != order[i];
      }
      FlattenValue(overrides, order, i);
    } else {
      forall i | 0 <= i < |order| ensures FlatKey(order[i]) != flat {
        assert order[i] in overrides;
      }
      var config := [base, Flatten(overrides, order)];
      assert flat !in config[1];
      assert config[..1] == [base];
      assert Lookup(config, flat) == Lookup([base], flat);
      assert [base][..0] == [];
      assert Lookup([base], flat) == if flat in base then Some(base[flat]) else None;
    }
  }
}
