/**
 * Feature analysis (src/features/analyzer.py): for each feature of the
 * execution sequence that the data does not already hold, fetch its
 * definition and record the function to call, its argument names and its
 * aggregation flag.
 */
module Analyzer {
  import opened Wrappers
  import opened Store
  import Detector
  import Seqs

  /** The function a feature runs: a Python function, or the one defined by a `udf` code string. */
  datatype FeatureFunc = PyFunction(fname: string) | Compiled(feature: string, code: string)

  /** `feature_funcs[f]`, `feature_args[f]` and `feature_groupby_flg[f]` of one feature. */
  datatype FeatureMeta = FeatureMeta(func: FeatureFunc, args: seq<string>, groupbyFlg: bool)

  const UdfKey := "udf"
  const ArgsKey := "args"

  /** `_analyze_callable` / `_analyze_dict`; a dict without `udf` or `args` raises `KeyError`. */
  function AnalyzeDef(name: string, d: FeatureDef): (r: Result<FeatureMeta>)
    ensures d.Callable? ==> r.Ok? && r.value.func == PyFunction(d.fname)
    ensures d.Callable? ==> r.value.groupbyFlg == Detector.IsAggregation(Detector.Function(d.source))
    ensures d.Callable? && d.argcount <= |d.varnames| ==> r.value.args == d.varnames[..d.argcount]
    ensures d.Udf? ==> (r.Ok? <==> d.udf.Some? && d.args.Some?)
    ensures d.Udf? && r.Ok? ==> r.value == FeatureMeta(Compiled(name, d.udf.value), d.args.value,
                                                    Detector.IsAggregation(Detector.Code(d.udf.value)))
    ensures d.Udf? && r.Err? ==> r.error.KeyError?
  {
    match d
    case Callable(fname, varnames, argcount, source) =>
      var args := if argcount <= |varnames| then varnames[..argcount] else varnames;
      Ok(FeatureMeta(PyFunction(fname), args, Detector.IsAggregation(Detector.Function(source))))
    case Udf(udf, args) =>
      if udf.None? then Err(KeyError(UdfKey))
      else if args.None? then Err(KeyError(ArgsKey))
      else Ok(FeatureMeta(Compiled(name, udf.value), args.value, Detector.IsAggregation(Detector.Code(udf.value))))
  }

  /** One feature of the loop: skipped when it is a column or not found, else its metadata is added. */
  function AnalyzeOne(features: map<string, FeatureDef>, scope: Option<string>, f: string, columns: seq<string>,
                      acc: map<string, FeatureMeta>): Result<map<string, FeatureMeta>>
  {
    if f in columns then Ok(acc)
    else match Lookup(features, f, scope)
      case None => Ok(acc)
      case Some(d) =>
        var meta := AnalyzeDef(f, d);
        if meta.Err? then Err(meta.error) else Ok(acc[f := meta.value])
  }

  /** The analysis of `execSeq[..n]` on a registry snapshot, `scope` being the effective model. */
  function AnalyzeSpec(features: map<string, FeatureDef>, scope: Option<string>, execSeq: seq<string>,
                       columns: seq<string>, n: nat): Result<map<string, FeatureMeta>>
    requires n <= |execSeq|
  {
    if n == 0 then Ok(map[])
    else
      var prev := AnalyzeSpec(features, scope, execSeq, columns, n - 1);
      if prev.Err? then prev
      else AnalyzeOne(features, scope, execSeq[n - 1], columns, prev.value)
  }

  /** One step adds at most the feature it looks at, with that feature's own metadata. */
  lemma AnalyzeOneKeys(features: map<string, FeatureDef>, scope: Option<string>, g: string, columns: seq<string>,
                       acc: map<string, FeatureMeta>, f: string)
    requires AnalyzeOne(features, scope, g, columns, acc).Ok?
    ensures var m := AnalyzeOne(features, scope, g, columns, acc).value;
      f in m <==> f in acc || (f == g && g !in columns && Lookup(features, g, scope).Some?)
    ensures var m := AnalyzeOne(features, scope, g, columns, acc).value;
      f in m && f != g ==> m[f] == acc[f]
    ensures var m := AnalyzeOne(features, scope, g, columns, acc).value;
      f == g && g !in columns && Lookup(features, g, scope).Some? ==> AnalyzeDef(f, Lookup(features, f, scope).value) == Ok(m[f])
  {
  }

  /** Which features get metadata: exactly the sequence's features that are not columns and are found. */
  lemma {:induction false} AnalyzeSpecKeys(features: map<string, FeatureDef>, scope: Option<string>, execSeq: seq<string>,
                                           columns: seq<string>, n: nat, f: string)
    requires n <= |execSeq|
    requires AnalyzeSpec(features, scope, execSeq, columns, n).Ok?
    ensures f in AnalyzeSpec(features, scope, execSeq, columns, n).value <==>
      f in execSeq[..n] && f !in columns && Lookup(features, f, scope).Some?
  {
    if n > 0 {
      var prev := AnalyzeSpec(features, scope, execSeq, columns, n - 1);
      AnalyzeSpecKeys(features, scope, execSeq, columns, n - 1, f);
      AnalyzeOneKeys(features, scope, execSeq[n - 1], columns, prev.value, f);
      Seqs.PrefixNext(execSeq, n - 1);
    }
  }

  /** The metadata recorded for a feature is what its definition yields. */
  lemma {:induction false} AnalyzeSpecMeta(features: map<string, FeatureDef>, scope: Option<string>, execSeq: seq<string>,
                                           columns: seq<string>, n: nat, f: string)
    requires n <= |execSeq|
    requires AnalyzeSpec(features, scope, execSeq, columns, n).Ok?
    requires f in AnalyzeSpec(features, scope, execSeq, columns, n).value
    ensures Lookup(features, f, scope).Some?
    ensures AnalyzeDef(f, Lookup(features, f, scope).value) == Ok(AnalyzeSpec(features, scope, execSeq, columns, n).value[f])
  {
    var prev := AnalyzeSpec(features, scope, execSeq, columns, n - 1);
    AnalyzeOneKeys(features, scope, execSeq[n - 1], columns, prev.value, f);
    if f != execSeq[n - 1] || f in columns || Lookup(features, f, scope).None? {
      AnalyzeSpecMeta(features, scope, execSeq, columns, n - 1, f);
    }
  }

  /** An analysis fails only on a found dict definition lacking `udf` or `args`. */
  lemma {:induction false} AnalyzeSpecErr(features: map<string, FeatureDef>, scope: Option<string>, execSeq: seq<string>,
                                          columns: seq<string>, n: nat)
    requires n <= |execSeq|
    requires AnalyzeSpec(features, scope, execSeq, columns, n).Err?
    ensures exists i :: 0 <= i < n && execSeq[i] !in columns && Lookup(features, execSeq[i], scope).Some?
              && AnalyzeDef(execSeq[i], Lookup(features, execSeq[i], scope).value).Err?
  {
    var prev := AnalyzeSpec(features, scope, execSeq, columns, n - 1);
    if prev.Err? {
      AnalyzeSpecErr(features, scope, execSeq, columns, n - 1);
    } else {
      assert execSeq[n - 1] !in columns;
    }
  }

  /** `analyze_features`, looking definitions up in `store` under `model`. */
  method AnalyzeFeatures(store: FeatureStore, execSeq: seq<string>, columns: seq<string>, model: Option<string>)
    returns (r: Result<map<string, FeatureMeta>>)
    ensures r == AnalyzeSpec(store.features, store.Scope(model), execSeq, columns, |execSeq|)
  {
    var meta: map<string, FeatureMeta> := map[];
    var i := 0;
    while i < |execSeq|
      invariant 0 <= i <= |execSeq|
      invariant AnalyzeSpec(store.features, store.Scope(model), execSeq, columns, i) == Ok(meta)
    {
      var step := AnalyzeFeature(store, execSeq[i], columns, model, meta);
      AnalyzeNext(store.features, store.Scope(model), execSeq, columns, i, meta);
      if step.Err? {
        return step;
      }
      meta := step.value;
      i := i + 1;
    }
    r := Ok(meta);
  }

  /** The body of the loop of `analyze_features` for feature `f`. */
  method AnalyzeFeature(store: FeatureStore, f: string, columns: seq<string>, model: Option<string>,
                        acc: map<string, FeatureMeta>) returns (r: Result<map<string, FeatureMeta>>)
    ensures r == AnalyzeOne(store.features, store.Scope(model), f, columns, acc)
  {
    if f in columns {
      return Ok(acc);
    }
    var d := store.GetFeature(f, model);
    if d.None? {
      return Ok(acc);
    }
    var m := AnalyzeDef(f, d.value);
    if m.Err? {
      return Err(m.error);
    }
    return Ok(acc[f := m.value]);
  }

  /** The next feature either ends the analysis with its failure or extends the metadata. */
  lemma AnalyzeNext(features: map<string, FeatureDef>, scope: Option<string>, execSeq: seq<string>,
                    columns: seq<string>, n: nat, acc: map<string, FeatureMeta>)
    requires n < |execSeq| && AnalyzeSpec(features, scope, execSeq, columns, n) == Ok(acc)
    ensures AnalyzeSpec(features, scope, execSeq, columns, n + 1) == AnalyzeOne(features, scope, execSeq[n], columns, acc)
    ensures AnalyzeOne(features, scope, execSeq[n], columns, acc).Err? ==>
      AnalyzeSpec(features, scope, execSeq, columns, |execSeq|) == AnalyzeOne(features, scope, execSeq[n], columns, acc)
  {
    if AnalyzeOne(features, scope, execSeq[n], columns, acc).Err? {
      ErrSticks(features, scope, execSeq, columns, n + 1);
    }
  }

  /** Once the analysis has failed it stays failed. */
  lemma {:induction false} ErrSticks(features: map<string, FeatureDef>, scope: Option<string>, execSeq: seq<string>,
                                     columns: seq<string>, n: nat)
    requires n <= |execSeq|
    requires AnalyzeSpec(features, scope, execSeq, columns, n).Err?
    ensures AnalyzeSpec(features, scope, execSeq, columns, |execSeq|) == AnalyzeSpec(features, scope, execSeq, columns, n)
    decreases |execSeq| - n
  {
    if n < |execSeq| { ErrSticks(features, scope, execSeq, columns, n + 1); }
  }

  /** `validate_arguments`: true exactly when every argument is a column or an aggregation result. */
  method ValidateArguments(args: seq<string>, columns: seq<string>, aggKeys: seq<string>) returns (ok: bool)
    ensures ok <==> forall i :: 0 <= i < |args| ==> args[i] in columns || args[i] in aggKeys
  {
    var missing: seq<string> := [];
    var i := 0;
    while i < |args|
      invariant 0 <= i <= |args|
      invariant forall x :: x in missing <==> exists k :: 0 <= k < i && args[k] == x && x !in columns && x !in aggKeys
    {
      if args[i] !in columns && args[i] !in aggKeys {
        missing := missing + [args[i]];
      }
      i := i + 1;
    }
    ok := |missing| == 0;
    if !ok {
      assert missing[0] in missing;
    }
  }
}
