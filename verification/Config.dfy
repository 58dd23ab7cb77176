/** Layered configuration: a per-key lookup and a materialised dictionary that must agree. */
module Config {
  import opened Wrappers

  datatype ConfigLayer = Session | Project | Profile | User | Machine | System

  type Layers<V> = map<ConfigLayer, map<string, V>>

  function ValuesOf<V>(layers: Layers<V>, layer: ConfigLayer): map<string, V> {
    if layer in layers then layers[layer] else map[]
  }

  function Find<V>(values: map<string, V>, key: string): Option<V> {
    if key in values then Some(values[key]) else None
  }

  /** The value of the first layer that defines the key. */
  function FirstDefined<V>(precedence: seq<ConfigLayer>, layers: Layers<V>, key: string): Option<V> {
    if precedence == [] then None
    else if key in ValuesOf(layers, precedence[0]) then Some(ValuesOf(layers, precedence[0])[key])
    else FirstDefined(precedence[1..], layers, key)
  }

  /** The rule: a security invariant is what SYSTEM says, anything else what the most specific layer says. */
  function Resolved<V>(precedence: seq<ConfigLayer>, layers: Layers<V>, invariantKeys: set<string>, key: string): Option<V> {
    if key in invariantKeys then Find(ValuesOf(layers, System), key) else FirstDefined(precedence, layers, key)
  }

  function Or<V>(value: Option<V>, default: V): V {
    if value.Some? then value.value else default
  }

  function WithValue<V>(layers: Layers<V>, layer: ConfigLayer, key: string, value: V): Layers<V> {
    layers[layer := ValuesOf(layers, layer)[key := value]]
  }

  class ConfigResolver<V> {
    var layers: Layers<V>
    const precedence: seq<ConfigLayer>
    const invariantKeys: set<string>

    constructor (precedence: seq<ConfigLayer>, invariantKeys: set<string>)
      ensures this.precedence == precedence && this.invariantKeys == invariantKeys && layers == map[]
    {
      this.precedence, this.invariantKeys, this.layers := precedence, invariantKeys, map[];
    }

    method Resolve(key: string, default: V) returns (value: V)
      ensures value == Or(Resolved(precedence, layers, invariantKeys, key), default)
    {
      if key in invariantKeys {
        var values := ValuesOf(layers, System);
        return if key in values then values[key] else default;
      }
      for i := 0 to |precedence|
        invariant FirstDefined(precedence, layers, key) == FirstDefined(precedence[i..], layers, key)
      {
        var values := ValuesOf(layers, precedence[i]);
        if key in values { return values[key]; }
      }
      return default;
    }

    /** The dictionary that gives, for every key, what the lookup gives. */
    method EffectiveConfig() returns (config: map<string, V>)
      ensures forall key :: Find(config, key) == Resolved(precedence, layers, invariantKeys, key)
    {
      config := map[];
      for i := |precedence| downto 0
        invariant forall key :: Find(config, key) == FirstDefined(precedence[i..], layers, key)
      {
        assert precedence[i..][1..] == precedence[i + 1..];
        config := config + ValuesOf(layers, precedence[i]);
      }
      var values := ValuesOf(layers, System);
      var rest := invariantKeys;
      while rest != {}
        invariant rest <= invariantKeys
        invariant forall key :: (Find(config, key) ==
          if key in invariantKeys - rest then Find(values, key) else FirstDefined(precedence, layers, key))
        decreases rest
      {
        var key :| key in rest;
        config := if key in values then config[key := values[key]] else config - {key};
        rest := rest - {key};
      }
    }

    method SetLayerValue(layer: ConfigLayer, key: string, value: V)
      modifies this`layers
      ensures layers == WithValue(old(layers), layer, key, value)
    {
      if layer !in layers { layers := layers[layer := map[]]; }
      layers := layers[layer := layers[layer][key := value]];
    }
  }

  /** The rule leaves one dictionary, and looking a key up in it, with any default, is resolving it. */
  lemma DictionaryAgrees<V>(
      config: map<string, V>, other: map<string, V>, precedence: seq<ConfigLayer>, layers: Layers<V>,
      invariantKeys: set<string>, key: string, default: V)
    requires forall k :: Find(config, k) == Resolved(precedence, layers, invariantKeys, k)
    requires forall k :: Find(other, k) == Resolved(precedence, layers, invariantKeys, k)
    ensures config == other
    ensures (if key in config then config[key] else default) == Or(Resolved(precedence, layers, invariantKeys, key), default)
  {
    assert Find(config, key) == Resolved(precedence, layers, invariantKeys, key);
    forall k ensures k in config <==> k in other { assert Find(config, k) == Find(other, k); }
    forall k | k in config ensures config[k] == other[k] { assert Find(config, k) == Find(other, k); }
  }

  /** No write to a layer other than SYSTEM, of any key, changes a security invariant. */
  lemma InvariantsAreInert<V>(
      precedence: seq<ConfigLayer>, layers: Layers<V>, invariantKeys: set<string>, layer: ConfigLayer, key: string, value: V,
      invariantKey: string)
    requires layer != System && invariantKey in invariantKeys
    ensures Resolved(precedence, WithValue(layers, layer, key, value), invariantKeys, invariantKey)
      == Resolved(precedence, layers, invariantKeys, invariantKey)
  {}

  /** Nor does any run of such writes. */
  datatype Assignment<V> = Assignment(layer: ConfigLayer, key: string, value: V)

  function Assigned<V>(layers: Layers<V>, writes: seq<Assignment<V>>): Layers<V> {
    if writes == [] then layers
    else
      var last := writes[|writes| - 1];
      WithValue(Assigned(layers, writes[..|writes| - 1]), last.layer, last.key, last.value)
  }

  lemma {:induction false} InvariantsOutliveWrites<V>(
      precedence: seq<ConfigLayer>, layers: Layers<V>, invariantKeys: set<string>, writes: seq<Assignment<V>>, invariantKey: string)
    requires invariantKey in invariantKeys && forall i :: 0 <= i < |writes| ==> writes[i].layer != System
    ensures Resolved(precedence, Assigned(layers, writes), invariantKeys, invariantKey)
      == Resolved(precedence, layers, invariantKeys, invariantKey)
  {
    if writes != [] {
      var init, last := writes[..|writes| - 1], writes[|writes| - 1];
      InvariantsOutliveWrites(precedence, layers, invariantKeys, init, invariantKey);
      InvariantsAreInert(precedence, Assigned(layers, init), invariantKeys, last.layer, last.key, last.value, invariantKey);
    }
  }

  /** A write to an ordinary key changes that key alone, and shows unless a more specific layer
      defines the key; the precedence lists no layer twice. */
  lemma {:induction false} WriteShows<V>(
      precedence: seq<ConfigLayer>, layers: Layers<V>, layer: ConfigLayer, key: string, value: V, at: nat, other: string)
    requires at < |precedence| && precedence[at] == layer
    requires forall i, j :: 0 <= i < j < |precedence| ==> precedence[i] != precedence[j]
    ensures other != key ==>
      FirstDefined(precedence, WithValue(layers, layer, key, value), other) == FirstDefined(precedence, layers, other)
    ensures FirstDefined(precedence, WithValue(layers, layer, key, value), key) ==
      var specific := FirstDefined(precedence[..at], layers, key);
      if specific.Some? then specific else Some(value)
  {
    var after := WithValue(layers, layer, key, value);
    if other != key { OtherKeysStay(precedence, layers, layer, key, value, other); }
    if at > 0 {
      WriteShows(precedence[1..], layers, layer, key, value, at - 1, other);
      assert precedence[1..][..at - 1] == precedence[..at][1..];
      assert ValuesOf(after, precedence[0]) == ValuesOf(layers, precedence[0]);
    }
  }

  lemma {:induction false} OtherKeysStay<V>(
      precedence: seq<ConfigLayer>, layers: Layers<V>, layer: ConfigLayer, key: string, value: V, other: string)
    requires other != key
    ensures FirstDefined(precedence, WithValue(layers, layer, key, value), other) == FirstDefined(precedence, layers, other)
  {
    if precedence != [] { OtherKeysStay(precedence[1..], layers, layer, key, value, other); }
  }

  const LAYER_PRECEDENCE := [Session, Project, Profile, User, Machine, System]

  /** Over the six layers a SESSION value always shows and a SYSTEM value only where no other layer
      defines the key. */
  lemma SixLayers<V>(layers: Layers<V>, key: string, value: V)
    ensures FirstDefined(LAYER_PRECEDENCE, WithValue(layers, Session, key, value), key) == Some(value)
    ensures FirstDefined(LAYER_PRECEDENCE, WithValue(layers, System, key, value), key) == Some(value)
      <==> FirstDefined(LAYER_PRECEDENCE[..5], layers, key) in {None, Some(value)}
  {
    WriteShows(LAYER_PRECEDENCE, layers, Session, key, value, 0, key);
    WriteShows(LAYER_PRECEDENCE, layers, System, key, value, 5, key);
  }
}
