/** Dictionary helpers (src/utils/dict_utils.py) on Python values. */
module DictUtils {
  import opened Wrappers
  import opened Seqs
  import opened Dicts
  import opened PyValues

  /** `safe_get`: `d.get(key, default)`; the optional warning is logging only. */
  function SafeGet(d: Dict<PyVal>, key: string, default: PyVal): (r: PyVal)
    ensures key in d.m ==> r == d.m[key]
    ensures key !in d.m ==> r == default
  {
    if key in d.m then d.m[key] else default
  }

  const DefaultEmptyIndicators: seq<PyVal> := [PNone, PStr(""), PList([])]

  /** The `empty_indicators` argument, defaulting to `[None, '', []]`. */
  function EmptyIndicators(indicators: Option<seq<PyVal>>): seq<PyVal> {
    if indicators.None? then DefaultEmptyIndicators else indicators.value
  }

  /**
   * `normalize_to_list`: an empty indicator becomes `None` (`to_none`) or `[]`,
   * a list is returned as is, anything else is wrapped in a one-element list.
   * Python `None` is `Option.None` here.
   */
  function NormalizeToList(value: PyVal, indicators: Option<seq<PyVal>>, toNone: bool): (r: Option<seq<PyVal>>)
    ensures r.None? <==> toNone && value in EmptyIndicators(indicators)
    ensures value in EmptyIndicators(indicators) && !toNone ==> r == Some([])
    ensures value !in EmptyIndicators(indicators) && value.PList? ==> r == Some(value.items)
    ensures value !in EmptyIndicators(indicators) && !value.PList? ==> r == Some([value])
  {
    if value in EmptyIndicators(indicators) then (if toNone then None else Some([]))
    else if value.PList? then Some(value.items)
    else Some([value])
  }

  /** With the default indicators, the result is empty exactly for `None`, `''` and `[]`. */
  lemma NormalizeEmptyIff(value: PyVal)
    ensures NormalizeToList(value, None, false).Some?
    ensures NormalizeToList(value, None, false).value == [] <==> value == PNone || value == PStr("") || value == PList([])
  {
  }

  /** Normalizing an already normalized list gives it back unchanged. */
  lemma NormalizeIdempotent(value: PyVal)
    ensures var once := NormalizeToList(value, None, false).value;
      NormalizeToList(PList(once), None, false) == Some(once)
  {
    var once := NormalizeToList(value, None, false).value;
    if once != [] {
      assert PList(once) != PList([]);
    }
  }

  /** `merge_dicts` (copy mode): entries of `updates` win, new keys go after those of `base`. */
  function MergeDicts(base: Dict<PyVal>, updates: Dict<PyVal>): (r: Dict<PyVal>)
    requires Valid(base) && Valid(updates)
    ensures Valid(r)
    ensures forall k :: k in r.m <==> k in base.m || k in updates.m
    ensures forall k :: k in r.m ==> r.m[k] == if k in updates.m then updates.m[k] else base.m[k]
    ensures |base.keys| <= |r.keys| && r.keys[..|base.keys|] == base.keys
  {
    Update(base, updates)
  }

  /** Follow `keys` through nested dicts; `None` when a level is not a dict or a key is missing or holds `None`. */
  function Walk(current: PyVal, keys: seq<string>): Option<PyVal>
    decreases |keys|
  {
    if |keys| == 0 then Some(current)
    else if !current.PDict? then None
    else
      var next := Get(current.d, keys[0]);
      if next.None? || next.value == PNone then None else Walk(next.value, keys[1..])
  }

  /** `get_nested(d, *keys, default=...)`. */
  function GetNested(d: PyVal, keys: seq<string>, default: PyVal): (r: PyVal)
    ensures |keys| == 0 ==> r == d
    ensures !d.PDict? && |keys| > 0 ==> r == default
  {
    match Walk(d, keys)
    case None => default
    case Some(v) => v
  }

  /** The loop of `get_nested`: one level per key, stopping at a non-dict or a missing value. */
  method GetNestedLoop(d: PyVal, keys: seq<string>, default: PyVal) returns (r: PyVal)
    ensures r == GetNested(d, keys, default)
  {
    var current := d;
    for i := 0 to |keys|
      invariant Walk(d, keys) == Walk(current, keys[i..])
    {
      assert keys[i..][1..] == keys[i + 1..];
      if !current.PDict? {
        return default;
      }
      var next := Get(current.d, keys[i]);
      if next.None? || next.value == PNone {
        return default;
      }
      current := next.value;
    }
    assert keys[|keys|..] == [];
    r := current;
  }

  /** A path can be followed in two stages. */
  lemma {:induction false} WalkConcat(v: PyVal, a: seq<string>, b: seq<string>)
    ensures Walk(v, a + b) == match Walk(v, a) case None => None case Some(w) => Walk(w, b)
    decreases |a|
  {
    if |a| == 0 {
      assert a + b == b;
    } else {
      assert (a + b)[0] == a[0] && (a + b)[1..] == a[1..] + b;
      if v.PDict? {
        var next := Get(v.d, a[0]);
        if next.Some? && next.value != PNone { WalkConcat(next.value, a[1..], b); }
      }
    }
  }

  /** A found value is never `None`, except for an empty path. */
  lemma {:induction false} WalkNeverNone(v: PyVal, keys: seq<string>)
    requires |keys| > 0 && Walk(v, keys).Some?
    ensures Walk(v, keys).value != PNone
    decreases |keys|
  {
    var next := Get(v.d, keys[0]);
    if |keys| > 1 { WalkNeverNone(next.value, keys[1..]); }
  }

  /** `{k: d[k] for k in keys if k in d}`. */
  function KeepPresent(d: Dict<PyVal>, keys: seq<string>): (r: Dict<PyVal>)
    requires Valid(d)
    ensures Valid(r)
    ensures forall k :: k in r.m <==> k in d.m && k in keys
    ensures forall k :: k in r.m ==> r.m[k] == d.m[k]
    ensures forall i :: 0 <= i < |r.keys| ==> r.keys[i] in keys
    decreases |keys|
  {
    if |keys| == 0 then Empty()
    else
      var front := KeepPresent(d, keys[..|keys| - 1]);
      var k := keys[|keys| - 1];
      assert forall x :: x in keys <==> x in keys[..|keys| - 1] || x == k;
      if k in d.m then Put(front, k, d.m[k]) else front
  }

  /** `filter_dict_by_keys`: in unsafe mode the first missing key raises `KeyError`. */
  function FilterDictByKeys(d: Dict<PyVal>, keys: seq<string>, safe: bool): (r: Result<Dict<PyVal>>)
    requires Valid(d)
    ensures r.Err? <==> !safe && exists i :: 0 <= i < |keys| && keys[i] !in d.m
    ensures r.Ok? ==> Valid(r.value)
    ensures r.Ok? ==> forall k :: k in r.value.m <==> k in d.m && k in keys
    ensures r.Ok? ==> forall k :: k in r.value.m ==> r.value.m[k] == d.m[k]
  {
    if !safe && exists i :: 0 <= i < |keys| && keys[i] !in d.m then
      Err(KeyError(FirstMissing(d, keys)))
    else Ok(KeepPresent(d, keys))
  }

  /** The first key of `keys` absent from `d`. */
  function FirstMissing(d: Dict<PyVal>, keys: seq<string>): string
    requires exists i :: 0 <= i < |keys| && keys[i] !in d.m
  {
    if keys[0] !in d.m then keys[0] else FirstMissing(d, keys[1..])
  }

  datatype ErrorClass = RaiseKeyError | RaiseValueError

  /** `get_or_raise`. */
  function GetOrRaise(d: Dict<PyVal>, key: string, cls: ErrorClass, message: Option<string>): (r: Result<PyVal>)
    ensures r.Ok? <==> key in d.m
    ensures r.Ok? ==> r.value == d.m[key]
    ensures r.Err? && cls == RaiseKeyError ==> r.error.KeyError?
    ensures r.Err? && cls == RaiseValueError ==> r.error.ValueError?
    ensures r.Err? && message.Some? ==> r.error.detail == message.value
  {
    if key in d.m then Ok(d.m[key])
    else
      var msg := if message.Some? then message.value else "Key '" + key + "' not found";
      if cls == RaiseKeyError then Err(KeyError(msg)) else Err(ValueError(msg))
  }

  /** `has_all_keys`. */
  predicate HasAllKeys<V>(d: Dict<V>, required: seq<string>) {
    forall i :: 0 <= i < |required| ==> required[i] in d.m
  }

  /** `get_missing_keys`: the required keys absent from `d`, in order. */
  function GetMissingKeys<V>(d: Dict<V>, required: seq<string>): (r: seq<string>)
    ensures forall k :: k in r <==> k in required && k !in d.m
    ensures |r| <= |required|
  {
    if |required| == 0 then []
    else (if required[0] in d.m then [] else [required[0]]) + GetMissingKeys(d, required[1..])
  }

  /** The two checks agree: nothing is missing exactly when every key is present. */
  lemma HasAllIffNoneMissing<V>(d: Dict<V>, required: seq<string>)
    ensures HasAllKeys(d, required) <==> GetMissingKeys(d, required) == []
  {
    if !HasAllKeys(d, required) {
      var i :| 0 <= i < |required| && required[i] !in d.m;
      assert required[i] in GetMissingKeys(d, required);
    }
  }

  /** The mapping `{v: k for k, v in items}` builds from the first `n` entries of `keys`. */
  function InvertMap(keys: seq<string>, m: map<string, string>, n: nat): (r: map<string, string>)
    requires n <= |keys| && forall i :: 0 <= i < |keys| ==> keys[i] in m
    ensures forall v :: v in r ==> r[v] in m && m[r[v]] == v
  {
    if n == 0 then map[] else InvertMap(keys, m, n - 1)[m[keys[n - 1]] := keys[n - 1]]
  }

  /** The comprehension `{v: k for k, v in items}` run over the first `n` entries of `keys`. */
  function InvertPrefix(keys: seq<string>, m: map<string, string>, n: nat): (r: Dict<string>)
    requires n <= |keys| && forall i :: 0 <= i < |keys| ==> keys[i] in m
    ensures Valid(r) && r.m == InvertMap(keys, m, n)
  {
    if n == 0 then Empty() else Put(InvertPrefix(keys, m, n - 1), m[keys[n - 1]], keys[n - 1])
  }

  /** `invert_dict` on a string-to-string dict: values become keys, each mapped to a key holding it. */
  function InvertDict(d: Dict<string>): (r: Dict<string>)
    requires Valid(d)
    ensures Valid(r)
    ensures forall v :: v in r.m ==> r.m[v] in d.m && d.m[r.m[v]] == v
  {
    InvertPrefix(d.keys, d.m, |d.keys|)
  }

  /** Every value of the first `n` entries becomes a key. */
  lemma {:induction false} InvertMapHas(keys: seq<string>, m: map<string, string>, n: nat, i: nat)
    requires n <= |keys| && forall j :: 0 <= j < |keys| ==> keys[j] in m
    requires i < n
    ensures m[keys[i]] in InvertMap(keys, m, n)
  {
    if i < n - 1 {
      InvertMapHas(keys, m, n - 1, i);
    }
  }

  /** An entry whose value no later entry repeats keeps its key: the last entry wins. */
  lemma {:induction false} InvertMapLast(keys: seq<string>, m: map<string, string>, n: nat, i: nat)
    requires n <= |keys| && forall j :: 0 <= j < |keys| ==> keys[j] in m
    requires i < n && forall j :: i < j < n ==> m[keys[j]] != m[keys[i]]
    ensures m[keys[i]] in InvertMap(keys, m, n) && InvertMap(keys, m, n)[m[keys[i]]] == keys[i]
  {
    if i < n - 1 {
      InvertMapLast(keys, m, n - 1, i);
    }
  }

  /** Every value of `d` is a key of the inverse. */
  lemma InvertDictHas(d: Dict<string>, k: string)
    requires Valid(d) && k in d.m
    ensures d.m[k] in InvertDict(d).m
  {
    var i :| 0 <= i < |d.keys| && d.keys[i] == k;
    InvertMapHas(d.keys, d.m, |d.keys|, i);
  }

  /** When several keys share a value, the inverse maps it to the one listed last. */
  lemma InvertDictLastWins(d: Dict<string>, i: nat)
    requires Valid(d) && i < |d.keys|
    requires forall j :: i < j < |d.keys| ==> d.m[d.keys[j]] != d.m[d.keys[i]]
    ensures d.m[d.keys[i]] in InvertDict(d).m && InvertDict(d).m[d.m[d.keys[i]]] == d.keys[i]
  {
    InvertMapLast(d.keys, d.m, |d.keys|, i);
  }

  /** For a dict whose values are distinct, inverting maps each value back to its own key. */
  lemma InvertInjective(d: Dict<string>, k: string)
    requires Valid(d) && k in d.m
    requires forall a, b :: a in d.m && b in d.m && d.m[a] == d.m[b] ==> a == b
    ensures d.m[k] in InvertDict(d).m && InvertDict(d).m[d.m[k]] == k
  {
    InvertDictHas(d, k);
  }
}
