/**
 * The configuration manager (src/core/config.py): a user configuration fixed
 * at construction and one runtime configuration per model, overlaid on the
 * user configuration when a model asks for its effective configuration.
 * Dictionaries are values here, so every `.copy()` of the source is implicit
 * and `get_runtime_config` hands out a value rather than the stored object.
 */
module Config {
  import opened Wrappers
  import opened Dicts
  import opened PyValues

  /**
   * The effective configuration of a model: the user configuration, updated
   * with the model's runtime configuration when it has a non-empty one.
   */
  function Effective(user: Dict<PyVal>, runtime: Option<Dict<PyVal>>): (r: Dict<PyVal>)
    requires Dicts.Valid(user) && (runtime.Some? ==> Dicts.Valid(runtime.value))
    ensures Dicts.Valid(r)
    ensures runtime.None? ==> r == user
  {
    if runtime.Some? && |runtime.value.keys| > 0 then Update(user, runtime.value) else user
  }

  /** Runtime values win on shared keys; other keys keep their user values; no key comes from nowhere. */
  lemma EffectiveOverlay(user: Dict<PyVal>, runtime: Dict<PyVal>, k: string)
    requires Dicts.Valid(user) && Dicts.Valid(runtime)
    ensures k in Effective(user, Some(runtime)).m <==> k in user.m || k in runtime.m
    ensures k in runtime.m ==> Effective(user, Some(runtime)).m[k] == runtime.m[k]
    ensures k in user.m && k !in runtime.m ==> Effective(user, Some(runtime)).m[k] == user.m[k]
  {
  }

  /** The user configuration comes back unchanged when the runtime configuration is empty. */
  lemma EffectiveEmptyRuntime(user: Dict<PyVal>, runtime: Dict<PyVal>)
    requires Dicts.Valid(user) && Dicts.Valid(runtime) && runtime.m == map[]
    ensures Effective(user, Some(runtime)) == user
  {
  }

  class ConfigManager {
    /** `_user_config`: never reassigned after construction. */
    const user: Dict<PyVal>
    /** `_runtime_config`: model name to that model's runtime configuration. */
    var runtime: map<string, Dict<PyVal>>

    predicate Valid()
      reads this
    {
      && Dicts.Valid(user)
      && forall model :: model in runtime ==> Dicts.Valid(runtime[model])
    }

    constructor(userConfig: Dict<PyVal>)
      requires Dicts.Valid(userConfig)
      ensures user == userConfig && runtime == map[]
      ensures Valid()
    {
      user := userConfig;
      runtime := map[];
    }

    /** `runtime_config.get(model)`. */
    function RuntimeOf(model: string): (r: Option<Dict<PyVal>>)
      reads this
      ensures r.Some? <==> model in runtime
      ensures r.Some? ==> r.value == runtime[model]
    {
      if model in runtime then Some(runtime[model]) else None
    }

    /** `get_user_config`: the user value of `key`, or `default` when the key is absent. */
    method GetUserConfig(key: string, default: PyVal) returns (v: PyVal)
      ensures key in user.m ==> v == user.m[key]
      ensures key !in user.m ==> v == default
    {
      v := if key in user.m then user.m[key] else default;
    }

    /** `get_all_user_config`: the whole user configuration. */
    method GetAllUserConfig() returns (c: Dict<PyVal>)
      ensures c == user
    {
      c := user;
    }

    /** `set_runtime_config`: replaces this model's entry and no other. */
    method SetRuntimeConfig(model: string, config: Dict<PyVal>)
      requires Valid() && Dicts.Valid(config)
      modifies this
      ensures runtime == old(runtime)[model := config]
      ensures Valid()
    {
      runtime := runtime[model := config];
    }

    /**
     * `merge_runtime_config`: an unknown model starts from an empty entry;
     * the updates then override or extend the entry. Other models keep theirs.
     */
    method MergeRuntimeConfig(model: string, updates: Dict<PyVal>)
      requires Valid() && Dicts.Valid(updates)
      modifies this
      ensures model in old(runtime) ==> runtime == old(runtime)[model := Update(old(runtime)[model], updates)]
      ensures model !in old(runtime) ==> runtime == old(runtime)[model := Update(Empty(), updates)]
      ensures Valid()
    {
      var entry := if model in runtime then runtime[model] else Empty();
      runtime := runtime[model := Update(entry, updates)];
    }

    /** `get_runtime_config`: the model's entry, or nothing. */
    method GetRuntimeConfig(model: string) returns (r: Option<Dict<PyVal>>)
      ensures r.Some? <==> model in runtime
      ensures r.Some? ==> r.value == runtime[model]
    {
      r := RuntimeOf(model);
    }

    /** `get_effective_config`: the user configuration overlaid with the model's runtime configuration. */
    method GetEffectiveConfig(model: string) returns (r: Dict<PyVal>)
      requires Valid()
      ensures r == Effective(user, RuntimeOf(model))
    {
      r := user;
      if model in runtime && |runtime[model].keys| > 0 {
        r := Update(r, runtime[model]);
      }
    }
  }

  /** A merge into an unknown model makes the model's entry exactly the updates. */
  lemma MergeUnknownIsUpdates(updates: Dict<PyVal>)
    requires Dicts.Valid(updates)
    ensures Update(Empty<PyVal>(), updates).m == updates.m
  {
    var r := Update(Empty<PyVal>(), updates);
    assert forall k :: k in r.m <==> k in updates.m;
  }
}
