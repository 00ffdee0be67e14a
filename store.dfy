/**
 * The feature registry (src/features/store.py): feature definitions keyed by
 * `"<model>:<name>"` when a model scope is in force and by the bare name
 * otherwise, with a fallback to the bare name on lookup.
 */
module Store {
  import opened Wrappers
  import opened Dicts

  /**
   * A stored feature: a Python function (its name, `co_varnames`,
   * `co_argcount`, and its source text when `inspect.getsource` can find
   * it) or a dict with optional `udf` code and `args` entries.
   */
  datatype FeatureDef =
    | Callable(fname: string, varnames: seq<string>, argcount: nat, source: Option<string>)
    | Udf(udf: Option<string>, args: Option<seq<string>>)

  /** A model name is in force only when it is a non-empty string (Python truthiness). */
  predicate Truthy(model: Option<string>) {
    model.Some? && |model.value| > 0
  }

  /** The registry key of `name` under `scope`. */
  function Key(name: string, scope: Option<string>): string {
    if Truthy(scope) then scope.value + ":" + name else name
  }

  /** Within one scope, different names never share a key. */
  lemma KeyInjective(a: string, b: string, scope: Option<string>)
    requires Key(a, scope) == Key(b, scope)
    ensures a == b
  {
    if Truthy(scope) {
      var p := scope.value + ":";
      assert Key(a, scope) == p + a && Key(b, scope) == p + b;
      assert a == (p + a)[|p|..] && b == (p + b)[|p|..];
    }
  }

  /** `get_feature` on a snapshot of the registry, `scope` being the effective model. */
  function Lookup(features: map<string, FeatureDef>, name: string, scope: Option<string>): Option<FeatureDef> {
    var key := Key(name, scope);
    if key in features then Some(features[key])
    else if Truthy(scope) && name in features then Some(features[name])
    else None
  }

  /** Storing every entry of `defs` in order under one scope (the loop of `store_features`). */
  function StoreAll(features: map<string, FeatureDef>, names: seq<string>, defs: map<string, FeatureDef>, scope: Option<string>): map<string, FeatureDef>
    requires forall i :: 0 <= i < |names| ==> names[i] in defs
    decreases |names|
  {
    if |names| == 0 then features
    else StoreAll(features[Key(names[0], scope) := defs[names[0]]], names[1..], defs, scope)
  }

  /** After a batch store every name of the batch is found, under the same scope, with its own definition. */
  lemma {:induction false} StoreAllFound(features: map<string, FeatureDef>, names: seq<string>, defs: map<string, FeatureDef>, scope: Option<string>, n: string)
    requires forall i :: 0 <= i < |names| ==> names[i] in defs
    requires n in names
    ensures Lookup(StoreAll(features, names, defs, scope), n, scope) == Some(defs[n])
    decreases |names|
  {
    var f1 := features[Key(names[0], scope) := defs[names[0]]];
    if n in names[1..] {
      StoreAllFound(f1, names[1..], defs, scope, n);
    } else {
      assert n == names[0];
      StoreAllKeeps(f1, names[1..], defs, scope, n);
    }
  }

  /** A batch leaves the keys of names outside it untouched. */
  lemma {:induction false} StoreAllKeeps(features: map<string, FeatureDef>, names: seq<string>, defs: map<string, FeatureDef>, scope: Option<string>, n: string)
    requires forall i :: 0 <= i < |names| ==> names[i] in defs
    requires n !in names
    ensures var after := StoreAll(features, names, defs, scope);
      Key(n, scope) in after <==> Key(n, scope) in features
    ensures var after := StoreAll(features, names, defs, scope);
      Key(n, scope) in features ==> after[Key(n, scope)] == features[Key(n, scope)]
    decreases |names|
  {
    if |names| > 0 {
      if Key(names[0], scope) == Key(n, scope) { KeyInjective(names[0], n, scope); }
      StoreAllKeeps(features[Key(names[0], scope) := defs[names[0]]], names[1..], defs, scope, n);
    }
  }

  /** A name registered under its bare key is always found, whatever scope is in force (`has_feature` then `get_feature`). */
  lemma HasImpliesFound(features: map<string, FeatureDef>, name: string, scope: Option<string>)
    requires name in features
    ensures Lookup(features, name, scope).Some?
    ensures Key(name, scope) !in features ==> Lookup(features, name, scope) == Some(features[name])
  {
  }

  /** The bare-name fallback applies only when the scoped key misses. */
  lemma ScopedKeyWins(features: map<string, FeatureDef>, name: string, scope: Option<string>)
    requires Key(name, scope) in features
    ensures Lookup(features, name, scope) == Some(features[Key(name, scope)])
  {
  }

  class FeatureStore {
    var features: map<string, FeatureDef>
    var currentModel: Option<string>
    /** model name -> names of the features saved for it */
    var featureIndex: map<string, seq<string>>

    constructor ()
      ensures features == map[] && currentModel == None && featureIndex == map[]
    {
      features := map[];
      currentModel := None;
      featureIndex := map[];
    }

    /** `model or self.current_model`. */
    function Scope(model: Option<string>): Option<string>
      reads this
    {
      if Truthy(model) then model else currentModel
    }

    /** `store_feature`: one definition under the effective scope; a re-store replaces it. */
    method StoreFeature(name: string, def: FeatureDef, model: Option<string>)
      modifies this
      ensures features == old(features)[Key(name, old(Scope(model))) := def]
      ensures Lookup(features, name, old(Scope(model))) == Some(def)
      ensures currentModel == old(currentModel) && featureIndex == old(featureIndex)
    {
      var key := Key(name, Scope(model));
      features := features[key := def];
    }

    /** `store_features` (without `auto_save`): every entry of `defs` under the current scope. */
    method StoreFeatures(defs: Dict<FeatureDef>)
      requires Valid(defs)
      modifies this
      ensures features == StoreAll(old(features), defs.keys, defs.m, currentModel)
      ensures forall n :: n in defs.m ==> Lookup(features, n, currentModel) == Some(defs.m[n])
      ensures currentModel == old(currentModel) && featureIndex == old(featureIndex)
    {
      var i := 0;
      while i < |defs.keys|
        invariant 0 <= i <= |defs.keys|
        invariant currentModel == old(currentModel) && featureIndex == old(featureIndex)
        invariant StoreAll(old(features), defs.keys, defs.m, currentModel)
               == StoreAll(features, defs.keys[i..], defs.m, currentModel)
      {
        assert defs.keys[i..][1..] == defs.keys[i + 1..];
        StoreFeature(defs.keys[i], defs.m[defs.keys[i]], None);
        i := i + 1;
      }
      forall n | n in defs.m ensures Lookup(features, n, currentModel) == Some(defs.m[n]) {
        StoreAllFound(old(features), defs.keys, defs.m, currentModel, n);
      }
    }

    /** `get_feature`. */
    function GetFeature(name: string, model: Option<string>): (r: Option<FeatureDef>)
      reads this
      ensures r.Some? <==> Key(name, Scope(model)) in features || (Truthy(Scope(model)) && name in features)
    {
      Lookup(features, name, Scope(model))
    }

    /** `has_feature`: membership of the bare key only. */
    predicate HasFeature(name: string)
      reads this
      ensures HasFeature(name) ==> forall m :: GetFeature(name, m).Some?
      ensures !HasFeature(name) ==> GetFeature(name, None) == None || Truthy(currentModel)
    {
      name in features
    }

    /** `clear`. */
    method Clear()
      modifies this
      ensures features == map[] && featureIndex == map[]
      ensures currentModel == old(currentModel)
    {
      features := map[];
      featureIndex := map[];
    }
  }
}
