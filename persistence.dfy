/**
 * Which columns of a dataset get saved (`_get_columns_to_save` in
 * src/core/persistence.py). Outputs of analytical models, those with a
 * `group_by`, keep only their `in_cols`; everything else keeps every column.
 * The file I/O around it is not part of this model.
 */
module Persistence {
  import opened Wrappers
  import opened Strings
  import opened Seqs
  import opened Dicts
  import opened PyValues
  import opened Context
  import opened DictUtils
  import opened ColumnUtils

  /** The model a `<model>_filters` or `<model>_attrs` dataset belongs to. */
  function ModelNameOf(datasetName: string): string {
    Replace(Replace(datasetName, "_filters", ""), "_attrs", "")
  }

  /** A dataset written by a model run, judged by its name alone. */
  predicate IsModelOutputName(datasetName: string) {
    Contains(datasetName, "_filters") || Contains(datasetName, "_attrs")
  }

  /** `normalize_to_list(cfg_model.get(key))` with the default empty indicators. */
  function ListOf(cfg: Dict<PyVal>, key: string): seq<PyVal> {
    NormalizeToList(SafeGet(cfg, key, PNone), None, false).value
  }

  /** The analytical model's configuration, when the dataset is the output of one. */
  function AnalyticalConfig(datasetName: string, models: Dict<ModelRecord>): Option<PyVal> {
    if !IsModelOutputName(datasetName) then None
    else match Get(models, ModelNameOf(datasetName))
      case None => None
      case Some(info) =>
        if info.cfgModel.Some? && Truthy(info.cfgModel.value) then info.cfgModel else None
  }

  /**
   * `_get_columns_to_save`. For the output of a model whose configuration has
   * a non-empty `group_by` and truthy `in_cols`, the `in_cols` that are table
   * columns and neither `row_id` nor a group-by column, once each and in
   * `in_cols` order; in every other case all columns. A configuration that is
   * not a dict, or `in_cols` that cannot be iterated, raise as in Python.
   */
  function ColumnsToSave(datasetName: string, columns: seq<string>, models: Dict<ModelRecord>): (r: Result<seq<string>>)
    ensures AnalyticalConfig(datasetName, models).None? ==> r == Ok(columns)
    ensures r.Err? ==> r.error.AttributeError? || r.error.TypeError?
  {
    match AnalyticalConfig(datasetName, models)
    case None => Ok(columns)
    case Some(cfgVal) =>
      if !cfgVal.PDict? then Err(AttributeError("'" + "cfg_model" + "' has no attribute 'get'"))
      else
        var cfg := cfgVal.d;
        var groupBy := ListOf(cfg, "group_by");
        var inCols := SafeGet(cfg, "in_cols", PList([]));
        if |groupBy| == 0 || !Truthy(inCols) then Ok(columns)
        else match Iterate(inCols)
          case None => Err(TypeError("in_cols is not iterable"))
          case Some(base) => Ok(KeptInCols(base, cfg, columns))
  }

  /** `build_column_list(in_cols, exclude=row_id + group_by, available_cols=columns)`, on the string items. */
  function KeptInCols(inCols: seq<PyVal>, cfg: Dict<PyVal>, columns: seq<string>): (r: seq<string>)
    ensures NoDup(r) && Subseq(r, StrItems(inCols))
    ensures forall c :: c in r <==>
      && PStr(c) in inCols
      && c in columns
      && PStr(c) !in ListOf(cfg, "row_id")
      && PStr(c) !in ListOf(cfg, "group_by")
  {
    var exclude := ListOf(cfg, "row_id") + ListOf(cfg, "group_by");
    var r := BuiltColumns(StrItems(inCols), [], StrItems(exclude), Some(columns), true);
    BuiltColumnsDedup(StrItems(inCols), [], StrItems(exclude), Some(columns));
    assert StrItems(inCols) + [] == StrItems(inCols);
    assert forall c :: c in StrItems(exclude) <==> PStr(c) in exclude;
    r
  }

  /** Datasets whose name mentions neither `_filters` nor `_attrs` keep every column. */
  lemma PlainDatasetsKeepAll(datasetName: string, columns: seq<string>, models: Dict<ModelRecord>)
    requires !Contains(datasetName, "_filters") && !Contains(datasetName, "_attrs")
    ensures ColumnsToSave(datasetName, columns, models) == Ok(columns)
  {
  }

  /** Output of an unknown model keeps every column. */
  lemma UnknownModelKeepsAll(datasetName: string, columns: seq<string>, models: Dict<ModelRecord>)
    requires ModelNameOf(datasetName) !in models.m
    ensures ColumnsToSave(datasetName, columns, models) == Ok(columns)
  {
  }

  /** Output of an enrichment model, one without `group_by`, keeps every column. */
  lemma EnrichmentKeepsAll(datasetName: string, columns: seq<string>, models: Dict<ModelRecord>, cfg: Dict<PyVal>)
    requires IsModelOutputName(datasetName) && ModelNameOf(datasetName) in models.m
    requires models.m[ModelNameOf(datasetName)].cfgModel == Some(PDict(cfg)) && |cfg.keys| > 0
    requires ListOf(cfg, "group_by") == []
    ensures ColumnsToSave(datasetName, columns, models) == Ok(columns)
  {
  }

  /**
   * Output of an analytical model with a list of `in_cols` keeps exactly the
   * listed table columns that are neither `row_id` nor group-by columns, each once.
   */
  lemma AnalyticalKeepsInCols(datasetName: string, columns: seq<string>, models: Dict<ModelRecord>,
                              cfg: Dict<PyVal>, inCols: seq<PyVal>)
    requires IsModelOutputName(datasetName) && ModelNameOf(datasetName) in models.m
    requires models.m[ModelNameOf(datasetName)].cfgModel == Some(PDict(cfg)) && |cfg.keys| > 0
    requires ListOf(cfg, "group_by") != []
    requires "in_cols" in cfg.m && cfg.m["in_cols"] == PList(inCols) && |inCols| > 0
    ensures var r := ColumnsToSave(datasetName, columns, models);
      && r.Ok?
      && NoDup(r.value)
      && forall c :: c in r.value <==>
        && PStr(c) in inCols
        && c in columns
        && PStr(c) !in ListOf(cfg, "row_id")
        && PStr(c) !in ListOf(cfg, "group_by")
  {
    assert AnalyticalConfig(datasetName, models) == Some(PDict(cfg));
  }

  /** An analytical model with empty `in_cols` falls back to every column. */
  lemma EmptyInColsKeepsAll(datasetName: string, columns: seq<string>, models: Dict<ModelRecord>, cfg: Dict<PyVal>)
    requires IsModelOutputName(datasetName) && ModelNameOf(datasetName) in models.m
    requires models.m[ModelNameOf(datasetName)].cfgModel == Some(PDict(cfg)) && |cfg.keys| > 0
    requires "in_cols" !in cfg.m || cfg.m["in_cols"] == PList([])
    ensures ColumnsToSave(datasetName, columns, models) == Ok(columns)
  {
  }
}
