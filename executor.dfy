/**
 * Running one model (src/execution/executor.py): the guards of
 * `execute_model` (a model name, an input table, a context wherever one is
 * needed, external sources that exist and share the join columns), the
 * normalisation of `group_by`, the call into analysis and per-group
 * execution, and `_update_exec_tracking`, which lists the features a run
 * produced as the output tables' columns minus group-by and row-id.
 */
module Executor {
  import opened Wrappers
  import opened Strings
  import opened Seqs
  import opened Dicts
  import opened Frames
  import opened PyValues
  import Store
  import opened Analyzer
  import opened Calculator
  import opened GroupBy
  import opened Context
  import opened Results
  import DictUtils
  import ValidationUtils
  import ExternalData
  import opened Merge

  const ModelNameKey := "model_name"
  const GroupByKey := "group_by"
  const RowIdKey := "row_id"
  const ExecSeqKey := "exec_seq"
  const ExecFltrsKey := "exec_fltrs"
  const ExecAttrsKey := "exec_attrs"
  const ExtColsKey := "ext_cols"
  const ExternalDataKey := "external_data"
  const FeatureFuncsKey := "feature_funcs"
  const FeatureArgsKey := "feature_args"
  const FeatureGroupbyFlgKey := "feature_groupby_flg"

  /** The tracking keys are distinct from each other and from the keys they must leave alone. */
  lemma TrackingKeysDistinct()
    ensures ExecFltrsKey != ExecAttrsKey
    ensures GroupByKey != ExecFltrsKey && GroupByKey != ExecAttrsKey
    ensures RowIdKey != ExecFltrsKey && RowIdKey != ExecAttrsKey
    ensures ExternalDataKey != ExecFltrsKey && ExternalDataKey != ExecAttrsKey && ExternalDataKey != GroupByKey
  {
    assert ExecFltrsKey[5] != ExecAttrsKey[5];
    assert |GroupByKey| != |ExecFltrsKey| && |RowIdKey| != |ExecFltrsKey| && |ExecFltrsKey| == |ExecAttrsKey|;
    assert |ExternalDataKey| != |ExecFltrsKey| && |ExternalDataKey| != |GroupByKey|;
  }

  /** The keys of the analysis results differ from each other and from the other keys `execute_model` writes. */
  lemma AnalysisKeysDistinct()
    ensures FeatureFuncsKey != FeatureArgsKey && FeatureFuncsKey != FeatureGroupbyFlgKey && FeatureArgsKey != FeatureGroupbyFlgKey
    ensures !IsAnalysisKey(ExecFltrsKey) && !IsAnalysisKey(ExecAttrsKey)
    ensures !IsAnalysisKey(GroupByKey) && !IsAnalysisKey(RowIdKey)
    ensures !IsAnalysisKey(ExternalDataKey)
  {
    assert |FeatureFuncsKey| == 13 && |FeatureArgsKey| == 12 && |FeatureGroupbyFlgKey| == 19;
    assert |ExecFltrsKey| == 10 && |ExecAttrsKey| == 10 && |GroupByKey| == 8 && |RowIdKey| == 6;
    assert ExternalDataKey[0] != FeatureFuncsKey[0];
  }

  /** The dictionary `execute_model` returns; `None` stands for an empty table. */
  datatype ExecOutput = ExecOutput(
    filters: Option<Table>,
    attrs: Option<Table>,
    inputDatasetName: string,
    execFltrs: seq<string>,
    execAttrs: seq<string>)

  /** `group_by` after `normalize_to_list(..., empty_indicators=[None, '', []], to_none=True)`: `None` or a list. */
  function NormalizeGroupBy(v: PyVal): (r: PyVal)
    ensures r == PNone <==> v == PNone || v == PStr("") || v == PList([])
    ensures r != PNone ==> r.PList? && |r.items| > 0
    ensures r != PNone && v.PList? ==> r == v
    ensures r != PNone && !v.PList? ==> r == PList([v])
  {
    match DictUtils.NormalizeToList(v, Some([PNone, PStr(""), PList([])]), true)
    case None => PNone
    case Some(items) => PList(items)
  }

  /** Normalising twice changes nothing more. */
  lemma NormalizeGroupByIdempotent(v: PyVal)
    ensures NormalizeGroupBy(NormalizeGroupBy(v)) == NormalizeGroupBy(v)
  {
  }

  /** A normalised `group_by` is enrichment mode exactly when it is `None`. */
  lemma NormalizedNoGrouping(v: PyVal)
    ensures NoGrouping(NormalizeGroupBy(v)) <==> NoGrouping(v)
  {
  }

  /** `exclude_cols`: the group-by columns and the row-id column, each through `normalize_to_list`. */
  function ExcludeCols(groupBy: PyVal, rowId: PyVal): (r: seq<PyVal>)
    ensures groupBy.PList? && groupBy != PList([]) ==> forall x :: x in groupBy.items ==> x in r
    ensures groupBy.PStr? && groupBy != PStr("") ==> groupBy in r
    ensures rowId.PStr? && rowId != PStr("") ==> rowId in r
  {
    DictUtils.NormalizeToList(groupBy, None, false).value + DictUtils.NormalizeToList(rowId, None, false).value
  }

  /** The columns of `cols` that are not excluded, in order. */
  function KeepNotExcluded(cols: seq<string>, exclude: seq<PyVal>): (r: seq<string>)
    ensures |r| <= |cols|
  {
    if |cols| == 0 then []
    else (if PStr(cols[0]) in exclude then [] else [cols[0]]) + KeepNotExcluded(cols[1..], exclude)
  }

  /** A column is kept exactly when it is one of `cols` and not excluded. */
  lemma {:induction false} KeepNotExcludedMember(cols: seq<string>, exclude: seq<PyVal>)
    ensures forall c :: c in KeepNotExcluded(cols, exclude) <==> c in cols && PStr(c) !in exclude
  {
    if |cols| > 0 {
      KeepNotExcludedMember(cols[1..], exclude);
      assert forall c :: c in cols <==> c == cols[0] || c in cols[1..];
    }
  }

  /** The filtering keeps column order: it distributes over concatenation. */
  lemma {:induction false} KeepNotExcludedAppend(a: seq<string>, b: seq<string>, exclude: seq<PyVal>)
    ensures KeepNotExcluded(a + b, exclude) == KeepNotExcluded(a, exclude) + KeepNotExcluded(b, exclude)
  {
    if |a| > 0 {
      assert (a + b)[0] == a[0] && (a + b)[1..] == a[1..] + b;
      KeepNotExcludedAppend(a[1..], b, exclude);
    } else {
      assert a + b == b;
    }
  }

  /** Without duplicate columns, the tracked list has none either. */
  lemma {:induction false} KeepNotExcludedNoDup(cols: seq<string>, exclude: seq<PyVal>)
    requires NoDup(cols)
    ensures NoDup(KeepNotExcluded(cols, exclude))
  {
    if |cols| > 0 {
      assert NoDup(cols[1..]);
      KeepNotExcludedNoDup(cols[1..], exclude);
      KeepNotExcludedMember(cols[1..], exclude);
      assert cols[0] !in cols[1..];
    }
  }

  /** The features one output table records: nothing for an empty table, else its non-excluded columns. */
  function Tracked(t: Table, exclude: seq<PyVal>): (r: seq<string>)
    ensures IsEmpty(t) ==> r == []
    ensures !IsEmpty(t) ==> forall c :: c in r <==> c in t.columns && PStr(c) !in exclude
  {
    KeepNotExcludedMember(t.columns, exclude);
    if IsEmpty(t) then [] else KeepNotExcluded(t.columns, exclude)
  }

  /** A tracked feature is never a group-by column nor the row-id column. */
  lemma TrackedSkipsKeys(t: Table, groupBy: PyVal, rowId: PyVal, c: string)
    requires c in Tracked(t, ExcludeCols(groupBy, rowId))
    ensures groupBy.PList? && groupBy != PList([]) ==> PStr(c) !in groupBy.items
    ensures rowId.PStr? && rowId != PStr("") ==> c != rowId.s
  {
  }

  /** `exec_fltrs` and `exec_attrs` written, in that order; every other key keeps its value. */
  function SetTracking(cfg: Dict<PyVal>, fltrs: PyVal, attrs: PyVal): (r: Dict<PyVal>)
    requires Dicts.Valid(cfg)
    ensures Dicts.Valid(r)
    ensures r.m == cfg.m[ExecFltrsKey := fltrs][ExecAttrsKey := attrs]
    ensures forall k :: k != ExecFltrsKey && k != ExecAttrsKey ==> SameAt(cfg, r, k)
  {
    PutTwo(cfg, ExecFltrsKey, fltrs, ExecAttrsKey, attrs)
  }

  /**
   * `_update_exec_tracking`: `exec_fltrs` and `exec_attrs` of the
   * configuration become the filters' and the attributes' tracked columns.
   */
  function UpdateExecTracking(cfg: Dict<PyVal>, filters: Table, attrs: Table): (r: Dict<PyVal>)
    requires Dicts.Valid(cfg)
    ensures Dicts.Valid(r)
    ensures var ex := ExcludeCols(DictUtils.SafeGet(cfg, GroupByKey, PNone), DictUtils.SafeGet(cfg, RowIdKey, PNone));
      && ExecFltrsKey in r.m && ExecAttrsKey in r.m
      && r.m[ExecFltrsKey] == StrList(Tracked(filters, ex))
      && r.m[ExecAttrsKey] == StrList(Tracked(attrs, ex))
  {
    var ex := ExcludeCols(DictUtils.SafeGet(cfg, GroupByKey, PNone), DictUtils.SafeGet(cfg, RowIdKey, PNone));
    SetTracking(cfg, StrList(Tracked(filters, ex)), StrList(Tracked(attrs, ex)))
  }

  /** `_update_exec_tracking` touches no key but `exec_fltrs` and `exec_attrs`. */
  lemma UpdateExecTrackingKeeps(cfg: Dict<PyVal>, filters: Table, attrs: Table, k: string)
    requires Dicts.Valid(cfg)
    requires k != ExecFltrsKey && k != ExecAttrsKey
    ensures var r := UpdateExecTracking(cfg, filters, attrs);
      SameAt(cfg, r, k)
  {
  }

  /**
   * The first failure of the external-source checks of one entry, if any:
   * `source`, then `join_on` absent; `get_dataset` on a `source` that is not
   * a string; the source not found; a join label Python cannot hash (a
   * list or a dictionary); then a join label missing from the input, then
   * from the source. `join_on` that is not a list is one label, whatever
   * its type; one that is not a column name is missing from both tables.
   */
  function EntryFailure(datasets: Dict<Table>, models: Dict<ModelRecord>, data: Table, inputName: string,
                        name: string, conf: PyVal): (r: Option<Failure>)
    requires ExternalData.EntryShape(conf)
  {
    if ExternalData.SourceKey !in conf.d.m then Some(KeyError(ExternalData.SourceKey))
    else if ExternalData.JoinOnKey !in conf.d.m then Some(KeyError(ExternalData.JoinOnKey))
    else if !conf.d.m[ExternalData.SourceKey].PStr? then Some(NotAName(conf.d.m[ExternalData.SourceKey]))
    else
      var source := conf.d.m[ExternalData.SourceKey].s;
      var ext := Lookup(datasets, models, source);
      var join := ExternalData.JoinLabels(conf.d.m[ExternalData.JoinOnKey]);
      if ext.None? then
        Some(ValueError("External dataset '" + source + "' not found in context. Available datasets: " + ListRepr(datasets.keys)))
      else
        var bad := ExternalData.FirstUnhashable(join);
        if bad.Some? then Some(UnhashableError(bad.value))
        else
          var missingInInput := ExternalData.MissingLabels(join, data.columns);
          var missingInExt := ExternalData.MissingLabels(join, ext.value.columns);
          if |missingInInput| > 0 then
            Some(ValueError(JoinMissing(name, LabelsRepr(missingInInput), "input dataset '" + inputName + "'")))
          else if |missingInExt| > 0 then
            Some(ValueError(JoinMissing(name, LabelsRepr(missingInExt), "external dataset '" + source + "'")))
          else None
  }

  function JoinMissing(name: string, cols: string, where: string): string {
    "External data '" + name + "': join columns " + cols + " not found in " + where
  }

  /**
   * An entry passes exactly when it names a source and join columns, the
   * source is a name found through the context, and every join label is a
   * column name of both the input table and the source. A missing key is a
   * `KeyError`, a source that is not a string an `AttributeError`, a join
   * label that is a list or a dictionary a `TypeError`, anything else a
   * `ValueError`.
   */
  lemma EntryFailureMeaning(datasets: Dict<Table>, models: Dict<ModelRecord>, data: Table, inputName: string,
                            name: string, conf: PyVal)
    requires ExternalData.EntryShape(conf)
    ensures var r := EntryFailure(datasets, models, data, inputName, name, conf);
      r.None? <==>
        && ExternalData.SourceKey in conf.d.m && ExternalData.JoinOnKey in conf.d.m
        && conf.d.m[ExternalData.SourceKey].PStr?
        && Lookup(datasets, models, conf.d.m[ExternalData.SourceKey].s).Some?
        && (forall v :: v in ExternalData.JoinLabels(conf.d.m[ExternalData.JoinOnKey]) ==> v.PStr? && v.s in data.columns)
        && (forall v :: v in ExternalData.JoinLabels(conf.d.m[ExternalData.JoinOnKey]) ==>
              v.PStr? && v.s in Lookup(datasets, models, conf.d.m[ExternalData.SourceKey].s).value.columns)
    ensures ExternalData.SourceKey !in conf.d.m ==> EntryFailure(datasets, models, data, inputName, name, conf) == Some(KeyError(ExternalData.SourceKey))
    ensures ExternalData.SourceKey in conf.d.m && ExternalData.JoinOnKey !in conf.d.m ==>
      EntryFailure(datasets, models, data, inputName, name, conf) == Some(KeyError(ExternalData.JoinOnKey))
    ensures ExternalData.SourceKey in conf.d.m && ExternalData.JoinOnKey in conf.d.m && !conf.d.m[ExternalData.SourceKey].PStr? ==>
      var r := EntryFailure(datasets, models, data, inputName, name, conf);
      r.Some? && r.value.AttributeError?
    ensures
      (&& ExternalData.SourceKey in conf.d.m && ExternalData.JoinOnKey in conf.d.m && conf.d.m[ExternalData.SourceKey].PStr?
       && Lookup(datasets, models, conf.d.m[ExternalData.SourceKey].s).Some?
       && exists v :: v in ExternalData.JoinLabels(conf.d.m[ExternalData.JoinOnKey]) && !Hashable(v)) ==>
        var r := EntryFailure(datasets, models, data, inputName, name, conf);
        r.Some? && r.value.TypeError?
    ensures var r := EntryFailure(datasets, models, data, inputName, name, conf);
      (&& r.Some? && ExternalData.SourceKey in conf.d.m && ExternalData.JoinOnKey in conf.d.m
       && conf.d.m[ExternalData.SourceKey].PStr?
       && forall v :: v in ExternalData.JoinLabels(conf.d.m[ExternalData.JoinOnKey]) ==> Hashable(v)) ==> r.value.ValueError?
  {
  }

  /** Entries that passed the checks, and name their columns, are ones the merge can read. */
  lemma PassedIsMergeable(datasets: Dict<Table>, models: Dict<ModelRecord>, data: Table, inputName: string, ext: PyVal)
    requires ExternalData.ColumnsShape(ext)
    requires ExternalFailure(datasets, models, data, inputName, ext).None?
    ensures Mergeable(ext)
  {
    ExternalFailureNone(datasets, models, data, inputName, ext);
    forall i | 0 <= i < |ext.d.keys|
      ensures MergeableEntry(ext.d.m[ext.d.keys[i]])
    {
      var conf := ext.d.m[ext.d.keys[i]];
      EntryFailureMeaning(datasets, models, data, inputName, ext.d.keys[i], conf);
      var join := conf.d.m[ExternalData.JoinOnKey];
      if !join.PList? {
        assert join in ExternalData.JoinLabels(join);
      } else {
        assert forall j :: 0 <= j < |join.items| ==> join.items[j] in ExternalData.JoinLabels(join);
      }
    }
  }

  /** Each entry's own failure, in entry order. */
  function EntryFailures(datasets: Dict<Table>, models: Dict<ModelRecord>, data: Table, inputName: string,
                         ext: PyVal): (fs: seq<Option<Failure>>)
    requires ExternalData.ExternalShape(ext)
    ensures |fs| == |ext.d.keys|
    ensures forall j :: 0 <= j < |fs| ==> fs[j] == EntryFailure(datasets, models, data, inputName, ext.d.keys[j], ext.d.m[ext.d.keys[j]])
  {
    seq(|ext.d.keys|, j requires 0 <= j < |ext.d.keys| => EntryFailure(datasets, models, data, inputName, ext.d.keys[j], ext.d.m[ext.d.keys[j]]))
  }

  /** The first failing entry, in entry order. */
  function ExternalFailure(datasets: Dict<Table>, models: Dict<ModelRecord>, data: Table, inputName: string,
                           ext: PyVal): (r: Option<Failure>)
    requires ExternalData.ExternalShape(ext)
  {
    FirstFailure(EntryFailures(datasets, models, data, inputName, ext), 0)
  }

  /** The checks pass exactly when every entry passes. */
  lemma ExternalFailureNone(datasets: Dict<Table>, models: Dict<ModelRecord>, data: Table, inputName: string, ext: PyVal)
    requires ExternalData.ExternalShape(ext)
    ensures ExternalFailure(datasets, models, data, inputName, ext).None? <==>
      forall j :: 0 <= j < |ext.d.keys| ==> EntryFailure(datasets, models, data, inputName, ext.d.keys[j], ext.d.m[ext.d.keys[j]]).None?
  {
    FirstFailureNone(EntryFailures(datasets, models, data, inputName, ext), 0);
  }

  /** The loop of `execute_model` over `external_data`: stops at the first entry that fails. */
  method CheckExternalData(ctx: GabedaContext, data: Table, inputName: string, ext: PyVal) returns (r: Option<Failure>)
    requires ExternalData.ExternalShape(ext)
    ensures r == ExternalFailure(ctx.datasets, ctx.models, data, inputName, ext)
  {
    ghost var fs := EntryFailures(ctx.datasets, ctx.models, data, inputName, ext);
    var i := 0;
    while i < |ext.d.keys|
      invariant 0 <= i <= |ext.d.keys|
      invariant FirstFailure(fs, 0) == FirstFailure(fs, i)
    {
      var name := ext.d.keys[i];
      var f := EntryFailure(ctx.datasets, ctx.models, data, inputName, name, ext.d.m[name]);
      assert f == fs[i];
      if f.Some? {
        return f;
      }
      i := i + 1;
    }
    return None;
  }

  /** What the configuration must look like for `execute_model` to read it. */
  predicate ConfigShape(cfg: Dict<PyVal>) {
    && GuardShape(cfg)
    && (ExecSeqKey in cfg.m ==> IsStrList(cfg.m[ExecSeqKey]))
    && DictUtils.SafeGet(cfg, ExtColsKey, PDict(Empty())).PDict?
    && IsStrList(ExternalData.ExternalColumnList(cfg))
    && (NoGrouping(GroupByOf(cfg)) || GroupColumns(GroupByOf(cfg)).Some?)
  }

  /** What the guards of `execute_model` read of the configuration. */
  predicate GuardShape(cfg: Dict<PyVal>) {
    && Dicts.Valid(cfg)
    && (ModelNameKey in cfg.m ==> cfg.m[ModelNameKey].PStr?)
    && (Truthy(ExternalOf(cfg)) ==> ExternalData.ColumnsShape(ExternalOf(cfg)))
  }

  /** `cfg_model.get('external_data')`. */
  function ExternalOf(cfg: Dict<PyVal>): PyVal {
    DictUtils.SafeGet(cfg, ExternalDataKey, PNone)
  }

  /** What `context.get_dataset` can reach: the context's datasets and model records, when there is a context. */
  function CatalogOf(ctx: Option<GabedaContext>): (r: Option<Catalog>)
    reads if ctx.Some? then {ctx.value} else {}
    ensures r.Some? <==> ctx.Some?
    ensures r.Some? ==> r.value.datasets == ctx.value.datasets && r.value.models == ctx.value.models
  {
    if ctx.Some? then Some(Catalog(ctx.value.datasets, ctx.value.models)) else None
  }

  /** The group-by value the engine receives. */
  function GroupByOf(cfg: Dict<PyVal>): PyVal {
    NormalizeGroupBy(DictUtils.SafeGet(cfg, GroupByKey, PNone))
  }

  /** pandas' split of a table into groups by the given `group_by`: well-formed groups whose keys fit it. */
  type Partition = (PyVal, Table) -> seq<Group>

  ghost predicate PartitionOk(split: Partition) {
    forall gb: PyVal, t: Table ::
      var groups := split(gb, t);
      forall k :: 0 <= k < |groups| ==> WellFormed(groups[k].rows) && (!NoGrouping(gb) ==> KeyFits(gb, groups[k].key))
  }

  /** The groups of one table satisfy what the engine expects of them. */
  lemma PartitionGroups(split: Partition, gb: PyVal, t: Table)
    requires PartitionOk(split)
    ensures forall k :: 0 <= k < |split(gb, t)| ==>
      WellFormed(split(gb, t)[k].rows) && (!NoGrouping(gb) ==> KeyFits(gb, split(gb, t)[k].key))
  {
    var groups := split(gb, t);
    forall k | 0 <= k < |groups|
      ensures WellFormed(groups[k].rows) && (!NoGrouping(gb) ==> KeyFits(gb, groups[k].key))
    {
    }
  }

  /**
   * The input table: `data_in` when given, otherwise the context's dataset
   * `input_dataset_name`; without either a `ValueError`.
   */
  function InputTable(dataIn: Option<Table>, ctx: Option<GabedaContext>, inputName: string): (r: Result<Table>)
    reads if ctx.Some? then {ctx.value} else {}
    ensures dataIn.Some? ==> r == Ok(dataIn.value)
    ensures dataIn.None? && ctx.None? ==> r.Err? && r.error.ValueError?
    ensures dataIn.None? && ctx.Some? ==>
      (r.Ok? <==> ctx.value.GetDataset(inputName).Some?) && (r.Ok? ==> r.value == ctx.value.GetDataset(inputName).value)
    ensures r.Ok? && (dataIn.Some? ==> WellFormed(dataIn.value)) && (ctx.Some? ==> TablesOk(ctx.value.datasets)) ==> WellFormed(r.value)
  {
    if dataIn.Some? then Ok(dataIn.value)
    else if ctx.None? then
      Err(ValueError(NoInputMessage))
    else
      var d := ctx.value.GetDataset(inputName);
      if d.None? then Err(ValueError(DatasetNotFound(inputName))) else Ok(d.value)
  }

  const NoInputMessage := "data_in not provided and context not available. Either pass data_in or initialize ModelExecutor with context."

  function DatasetNotFound(name: string): string {
    "Dataset '" + name + "' not found in context"
  }

  /** A table found through the context is one of its tables, hence well formed. */
  lemma LookupWellFormed(datasets: Dict<Table>, models: Dict<ModelRecord>, name: string)
    requires TablesOk(datasets)
    ensures Lookup(datasets, models, name).Some? ==> WellFormed(Lookup(datasets, models, name).value)
  {
  }

  /**
   * The guards of `execute_model` in order: a model name, then an input
   * table (given, or found through the context), then the external-data
   * checks. `Ok` carries the input table.
   */
  function Admitted(cfg: Dict<PyVal>, dataIn: Option<Table>, ctx: Option<GabedaContext>, inputName: string): (r: Result<Table>)
    requires GuardShape(cfg)
    reads if ctx.Some? then {ctx.value} else {}
    ensures r.Ok? ==> r == InputTable(dataIn, ctx, inputName)
    ensures r.Ok? && Truthy(ExternalOf(cfg)) ==> Mergeable(ExternalOf(cfg))
  {
    if ModelNameKey !in cfg.m then Err(ValueError(MissingModelName))
    else
      var input := InputTable(dataIn, ctx, inputName);
      if input.Err? then Err(input.error)
      else
        var f := ExternalGuard(ExternalOf(cfg), ctx, input.value, inputName);
        if f.Some? then Err(f.value)
        else if Truthy(ExternalOf(cfg)) then
          PassedIsMergeable(ctx.value.datasets, ctx.value.models, input.value, inputName, ExternalOf(cfg));
          Ok(input.value)
        else Ok(input.value)
  }

  /** The guards fail exactly as documented, and pass only with every external entry in order. */
  lemma AdmittedMeaning(cfg: Dict<PyVal>, dataIn: Option<Table>, ctx: Option<GabedaContext>, inputName: string)
    requires GuardShape(cfg)
    ensures var r := Admitted(cfg, dataIn, ctx, inputName);
      && (ModelNameKey !in cfg.m ==> r.Err? && r.error == ValueError(MissingModelName))
      && (ModelNameKey in cfg.m && InputTable(dataIn, ctx, inputName).Err? ==> r == Err(InputTable(dataIn, ctx, inputName).error))
      && (dataIn.Some? && ModelNameKey in cfg.m && !Truthy(ExternalOf(cfg)) ==> r == Ok(dataIn.value))
      && (ModelNameKey in cfg.m && Truthy(ExternalOf(cfg)) && ctx.None? ==> r.Err? && r.error.ValueError?)
      && (r.Ok? && Truthy(ExternalOf(cfg)) ==> ctx.Some? && forall j :: 0 <= j < |ExternalOf(cfg).d.keys| ==>
            var ext := ExternalOf(cfg);
            EntryFailure(ctx.value.datasets, ctx.value.models, r.value, inputName, ext.d.keys[j], ext.d.m[ext.d.keys[j]]).None?)
  {
    var r := Admitted(cfg, dataIn, ctx, inputName);
    if r.Ok? && Truthy(ExternalOf(cfg)) {
      ExternalFailureNone(ctx.value.datasets, ctx.value.models, r.value, inputName, ExternalOf(cfg));
    }
  }

  /**
   * `execute_model`. Returns the result and the configuration as the call
   * leaves it (it writes `group_by`, the three analysis dictionaries,
   * `exec_fltrs` and `exec_attrs` into it, even when it raises later). `split` is pandas' grouping and `ev` runs a
   * feature function, `join` pandas' left merge.
   */
  method ExecuteModel(cfg: Dict<PyVal>, inputName: string, dataIn: Option<Table>, ctx: Option<GabedaContext>,
                      store: Store.FeatureStore, split: Partition, ev: Eval, join: LeftJoin)
    returns (r: Result<ExecOutput>, cfgOut: Dict<PyVal>)
    requires ConfigShape(cfg)
    requires dataIn.Some? ==> WellFormed(dataIn.value)
    requires ctx.Some? ==> TablesOk(ctx.value.datasets)
    requires PartitionOk(split) && JoinOk(join)
    ensures Admitted(cfg, dataIn, ctx, inputName).Err? ==> r == Err(Admitted(cfg, dataIn, ctx, inputName).error)
    ensures ModelNameKey in cfg.m && InputTable(dataIn, ctx, inputName).Ok? ==>
      GroupByKey in cfgOut.m && cfgOut.m[GroupByKey] == GroupByOf(cfg)
    ensures ModelNameKey !in cfg.m || InputTable(dataIn, ctx, inputName).Err? ==> cfgOut == cfg
    ensures r.Ok? ==> OutputOk(r.value, cfgOut, GroupByOf(cfg), DictUtils.SafeGet(cfg, RowIdKey, PNone), inputName)
    ensures r.Ok? && NoGrouping(DictUtils.SafeGet(cfg, GroupByKey, PNone)) ==> r.value.attrs.None? && r.value.execAttrs == []
    ensures Admitted(cfg, dataIn, ctx, inputName).Ok? ==>
      Computes(r, ExecSpec(GroupByOf(cfg), ExecSeqOf(cfg), Strs(ExternalData.ExternalColumnList(cfg)), store.features,
                           store.Scope(Some(cfg.m[ModelNameKey].s)), Admitted(cfg, dataIn, ctx, inputName).value,
                           ExternalOf(cfg), CatalogOf(ctx), join, split, ev))
    ensures Admitted(cfg, dataIn, ctx, inputName).Ok? && ExecSeqKey in cfg.m ==>
      var execSeq := Strs(cfg.m[ExecSeqKey]);
      var a := AnalyzeSpec(store.features, store.Scope(Some(cfg.m[ModelNameKey].s)), execSeq,
                           Admitted(cfg, dataIn, ctx, inputName).value.columns, |execSeq|);
      a.Ok? ==> HasAnalysis(cfgOut, execSeq, a.value)
    ensures forall k :: !IsWrittenKey(k) && k != GroupByKey ==> SameAt(cfg, cfgOut, k)
  {
    var admitted;
    admitted, cfgOut := Admit(cfg, dataIn, ctx, inputName);
    if admitted.Err? {
      return Err(admitted.error), cfgOut;
    }
    var normalized := cfgOut;
    r, cfgOut := RunAdmitted(cfg, normalized, admitted.value, CatalogOf(ctx), join, inputName, store, split, ev);
  }

  /** `execute_model` after its guards passed on `data`, with `group_by` normalised in `normalized`. */
  method RunAdmitted(cfg: Dict<PyVal>, normalized: Dict<PyVal>, data: Table, catalog: Option<Catalog>, join: LeftJoin,
                     inputName: string, store: Store.FeatureStore, split: Partition, ev: Eval)
    returns (r: Result<ExecOutput>, cfgOut: Dict<PyVal>)
    requires ConfigShape(cfg) && ModelNameKey in cfg.m
    requires Truthy(ExternalOf(cfg)) ==> Mergeable(ExternalOf(cfg))
    requires Dicts.Valid(normalized) && GroupByKey in normalized.m && normalized.m[GroupByKey] == GroupByOf(cfg)
    requires forall k :: k != GroupByKey ==> SameAt(cfg, normalized, k)
    requires WellFormed(data) && PartitionOk(split) && JoinOk(join)
    requires catalog.Some? ==> TablesOk(catalog.value.datasets)
    ensures Computes(r, ExecSpec(GroupByOf(cfg), ExecSeqOf(cfg), Strs(ExternalData.ExternalColumnList(cfg)), store.features,
                                 store.Scope(Some(cfg.m[ModelNameKey].s)), data, ExternalOf(cfg), catalog, join, split, ev))
    ensures ExecSeqKey in cfg.m ==>
      var execSeq := Strs(cfg.m[ExecSeqKey]);
      var a := AnalyzeSpec(store.features, store.Scope(Some(cfg.m[ModelNameKey].s)), execSeq, data.columns, |execSeq|);
      a.Ok? ==> HasAnalysis(cfgOut, execSeq, a.value)
    ensures forall k :: !IsWrittenKey(k) && k != GroupByKey ==> SameAt(cfg, cfgOut, k)
    ensures GroupByKey in cfgOut.m && cfgOut.m[GroupByKey] == GroupByOf(cfg)
    ensures r.Ok? ==> OutputOk(r.value, cfgOut, GroupByOf(cfg), DictUtils.SafeGet(cfg, RowIdKey, PNone), inputName)
    ensures r.Ok? && NoGrouping(DictUtils.SafeGet(cfg, GroupByKey, PNone)) ==> r.value.attrs.None? && r.value.execAttrs == []
  {
    NormalizedNoGrouping(DictUtils.SafeGet(cfg, GroupByKey, PNone));
    assert SameAt(cfg, normalized, RowIdKey) && SameAt(cfg, normalized, ExternalDataKey) by {
      TrackingKeysDistinct();
    }
    r, cfgOut := RunAnalysed(normalized, ExecSeqOf(cfg), Strs(ExternalData.ExternalColumnList(cfg)), modelName := cfg.m[ModelNameKey].s,
                             data := data, catalog := catalog, join := join, inputName := inputName, store := store,
                             split := split, ev := ev);
    forall k | !IsWrittenKey(k) && k != GroupByKey
      ensures SameAt(cfg, cfgOut, k)
    {
      assert SameAt(cfg, normalized, k) && SameAt(normalized, cfgOut, k);
    }
  }

  /** The guards, with `group_by` normalised into the configuration once an input table is there. */
  method Admit(cfg: Dict<PyVal>, dataIn: Option<Table>, ctx: Option<GabedaContext>, inputName: string)
    returns (r: Result<Table>, cfgOut: Dict<PyVal>)
    requires GuardShape(cfg)
    requires dataIn.Some? ==> WellFormed(dataIn.value)
    requires ctx.Some? ==> TablesOk(ctx.value.datasets)
    ensures r == Admitted(cfg, dataIn, ctx, inputName)
    ensures r.Ok? ==> ModelNameKey in cfg.m && WellFormed(r.value)
    ensures ModelNameKey in cfg.m && InputTable(dataIn, ctx, inputName).Ok? ==>
      cfgOut == Put(cfg, GroupByKey, GroupByOf(cfg))
    ensures ModelNameKey !in cfg.m || InputTable(dataIn, ctx, inputName).Err? ==> cfgOut == cfg
    ensures forall k :: k != GroupByKey ==> SameAt(cfg, cfgOut, k)
    ensures r.Ok? ==> && Dicts.Valid(cfgOut) && GroupByKey in cfgOut.m && cfgOut.m[GroupByKey] == GroupByOf(cfg)
                      && DictUtils.SafeGet(cfgOut, RowIdKey, PNone) == DictUtils.SafeGet(cfg, RowIdKey, PNone)
  {
    cfgOut := cfg;
    var name := RequireModelName(cfg);
    if name.Err? {
      return Err(name.error), cfgOut;
    }
    var input := InputTable(dataIn, ctx, inputName);
    if input.Err? {
      return Err(input.error), cfgOut;
    }
    var data := input.value;
    if dataIn.None? {
      LookupWellFormed(ctx.value.datasets, ctx.value.models, inputName);
    }
    cfgOut := Put(cfgOut, GroupByKey, GroupByOf(cfg));
    PutKeeps(cfg, GroupByKey, GroupByOf(cfg));
    var failure := CheckExternal(ExternalOf(cfg), ctx, data, inputName);
    if failure.Some? {
      return Err(failure.value), cfgOut;
    }
    return Ok(data), cfgOut;
  }

  /** `validate_required_keys(cfg_model, ['model_name'])`, raising its first error as a `ValueError`. */
  method RequireModelName(cfg: Dict<PyVal>) returns (r: Result<string>)
    requires ModelNameKey in cfg.m ==> cfg.m[ModelNameKey].PStr?
    ensures ModelNameKey !in cfg.m ==> r == Err(ValueError(MissingModelName))
    ensures ModelNameKey in cfg.m ==> r == Ok(cfg.m[ModelNameKey].s)
  {
    var validation := ValidationUtils.ValidateRequiredKeys(cfg, [ModelNameKey], "dictionary");
    ModelNameErrors(cfg);
    if !validation.success {
      return Err(ValueError(validation.errors[0]));
    }
    return Ok(cfg.m[ModelNameKey].s);
  }

  /** `dictionary missing required keys: ['model_name']`, as `validate_required_keys` spells it. */
  const MissingModelName := "dictionary" + " missing required keys: " + ("['" + ModelNameKey + "']")

  /** The one message `validate_required_keys` produces for a configuration without `model_name`. */
  lemma ModelNameErrors(cfg: Dict<PyVal>)
    ensures ValidationUtils.RequiredKeysErrors(cfg, [ModelNameKey], "dictionary") ==
      if ModelNameKey in cfg.m then [] else [MissingModelName]
  {
    OneKeyErrors(cfg, ModelNameKey, "dictionary");
  }

  /** With a single required key, the error list is empty or names just that key. */
  lemma OneKeyErrors<V>(d: Dict<V>, k: string, contextName: string)
    ensures ValidationUtils.RequiredKeysErrors(d, [k], contextName) ==
      if k in d.m then [] else [contextName + " missing required keys: " + ("['" + k + "']")]
  {
    var missing := DictUtils.GetMissingKeys(d, [k]);
    assert [k][0] == k && [k][1..] == [];
    assert missing == (if k in d.m then [] else [k]) + DictUtils.GetMissingKeys(d, []);
    if k !in d.m {
      assert missing == [k];
      ListReprOne(k);
      assert ValidationUtils.RequiredKeysErrors(d, [k], contextName) == [contextName + " missing required keys: " + ListRepr(missing)];
    }
  }

  /**
   * The external-data guard of `execute_model`: nothing to check when
   * `external_data` is empty or absent; without a context a `ValueError`;
   * otherwise the first entry that fails (`ExternalFailureNone` says when
   * there is none).
   */
  function ExternalGuard(ext: PyVal, ctx: Option<GabedaContext>, data: Table, inputName: string): (r: Option<Failure>)
    requires Truthy(ext) ==> ExternalData.ExternalShape(ext)
    reads if ctx.Some? then {ctx.value} else {}
    ensures !Truthy(ext) ==> r.None?
    ensures Truthy(ext) && ctx.None? ==> r.Some? && r.value.ValueError?
    ensures Truthy(ext) && ctx.Some? ==> r == ExternalFailure(ctx.value.datasets, ctx.value.models, data, inputName, ext)
  {
    if !Truthy(ext) then None
    else if ctx.None? then Some(ValueError(NoContextMessage))
    else ExternalFailure(ctx.value.datasets, ctx.value.models, data, inputName, ext)
  }

  const NoContextMessage := "Model configuration includes 'external_data' but ModelExecutor was not initialized with context. "
                            + "Pass context when creating ModelExecutor to enable external data sources."

  method CheckExternal(ext: PyVal, ctx: Option<GabedaContext>, data: Table, inputName: string) returns (r: Option<Failure>)
    requires Truthy(ext) ==> ExternalData.ExternalShape(ext)
    ensures r == ExternalGuard(ext, ctx, data, inputName)
  {
    if Truthy(ext) {
      if ctx.None? {
        return Some(ValueError(NoContextMessage));
      }
      r := CheckExternalData(ctx.value, data, inputName, ext);
    } else {
      r := None;
    }
  }

  /**
   * What a successful run hands back: the output dictionary, `None` for
   * an empty table, and the tracking lists, also written into the
   * configuration, that name each table's columns other than group-by and
   * row-id.
   */
  predicate OutputOk(out: ExecOutput, cfgOut: Dict<PyVal>, groupBy: PyVal, rowId: PyVal, inputName: string) {
    var ex := ExcludeCols(groupBy, rowId);
    && out.inputDatasetName == inputName
    && (out.filters.Some? ==> !IsEmpty(out.filters.value))
    && (out.attrs.Some? ==> !IsEmpty(out.attrs.value))
    && out.execFltrs == (if out.filters.None? then [] else Tracked(out.filters.value, ex))
    && out.execAttrs == (if out.attrs.None? then [] else Tracked(out.attrs.value, ex))
    && GroupByKey in cfgOut.m && cfgOut.m[GroupByKey] == groupBy
    && ExecFltrsKey in cfgOut.m && cfgOut.m[ExecFltrsKey] == StrList(out.execFltrs)
    && ExecAttrsKey in cfgOut.m && cfgOut.m[ExecAttrsKey] == StrList(out.execAttrs)
  }

  /** Steps 3 and 4 of `execute_model`: `_update_exec_tracking`, then the output dictionary. */
  method TrackAndBuild(cfg: Dict<PyVal>, filters: Table, attrs: Table, inputName: string) returns (out: ExecOutput, cfgOut: Dict<PyVal>)
    requires Dicts.Valid(cfg) && GroupByKey in cfg.m
    ensures OutputOk(out, cfgOut, cfg.m[GroupByKey], DictUtils.SafeGet(cfg, RowIdKey, PNone), inputName)
    ensures out.filters.None? <==> IsEmpty(filters)
    ensures out.attrs.None? <==> IsEmpty(attrs)
    ensures out.filters.Some? ==> out.filters.value == filters
    ensures out.attrs.Some? ==> out.attrs.value == attrs
    ensures forall k :: k != ExecFltrsKey && k != ExecAttrsKey ==>
      SameAt(cfg, cfgOut, k)
  {
    cfgOut := UpdateExecTracking(cfg, filters, attrs);
    forall k | k != ExecFltrsKey && k != ExecAttrsKey
      ensures SameAt(cfg, cfgOut, k)
    {
      UpdateExecTrackingKeeps(cfg, filters, attrs, k);
    }
    TrackingKeysDistinct();
    UpdateExecTrackingKeeps(cfg, filters, attrs, GroupByKey);
    var ex := ExcludeCols(cfg.m[GroupByKey], DictUtils.SafeGet(cfg, RowIdKey, PNone));
    out := ExecOutput(
      if IsEmpty(filters) then None else Some(filters),
      if IsEmpty(attrs) then None else Some(attrs),
      inputName,
      Tracked(filters, ex),
      Tracked(attrs, ex));
  }

  /** The three dictionaries `analyze_features` returns, one per field of a feature's metadata. */
  datatype MetaField = Funcs | Args | GroupbyFlg

  /** The `__name__` of a feature's function: its own name, or the feature's for a compiled `udf`. */
  function FuncName(f: FeatureFunc): string {
    match f
    case PyFunction(fname) => fname
    case Compiled(feature, _) => feature
  }

  /** One feature's entry in a field's dictionary. */
  function FieldValue(field: MetaField, m: FeatureMeta): PyVal {
    match field
    case Funcs => PFunc(FuncName(m.func))
    case Args => StrList(m.args)
    case GroupbyFlg => PBool(m.groupbyFlg)
  }

  /**
   * The dictionary of one field after `analyze_features` ran over `execSeq`:
   * an entry for each analysed feature, in the order the loop first assigned it.
   */
  function FieldDict(field: MetaField, execSeq: seq<string>, meta: map<string, FeatureMeta>): (d: Dict<PyVal>)
    ensures Dicts.Valid(d)
    ensures forall f :: f in d.m <==> f in execSeq && f in meta
    ensures forall f :: f in d.m ==> f in meta && d.m[f] == FieldValue(field, meta[f])
    ensures Subseq(d.keys, execSeq)
  {
    if |execSeq| == 0 then Empty()
    else
      var prev := execSeq[..|execSeq| - 1];
      var f := execSeq[|execSeq| - 1];
      var d := FieldDict(field, prev, meta);
      assert execSeq == prev + [f];
      SubseqSnoc(d.keys, prev, f);
      if f in meta then Put(d, f, FieldValue(field, meta[f])) else d
  }

  /** Lines 162-164 of `execute_model`: the analysis results copied into the configuration. */
  function WriteAnalysis(cfg: Dict<PyVal>, execSeq: seq<string>, meta: map<string, FeatureMeta>): (r: Dict<PyVal>)
    requires Dicts.Valid(cfg)
    ensures Dicts.Valid(r)
    ensures HasAnalysis(r, execSeq, meta)
    ensures forall k :: !IsAnalysisKey(k) ==> SameAt(cfg, r, k)
  {
    var r := WriteFields(cfg, PDict(FieldDict(Funcs, execSeq, meta)), PDict(FieldDict(Args, execSeq, meta)),
                         PDict(FieldDict(GroupbyFlg, execSeq, meta)));
    r
  }

  /** The configuration holds the three dictionaries of the analysis of `execSeq`. */
  predicate HasAnalysis(cfg: Dict<PyVal>, execSeq: seq<string>, meta: map<string, FeatureMeta>) {
    && FeatureFuncsKey in cfg.m && cfg.m[FeatureFuncsKey] == PDict(FieldDict(Funcs, execSeq, meta))
    && FeatureArgsKey in cfg.m && cfg.m[FeatureArgsKey] == PDict(FieldDict(Args, execSeq, meta))
    && FeatureGroupbyFlgKey in cfg.m && cfg.m[FeatureGroupbyFlgKey] == PDict(FieldDict(GroupbyFlg, execSeq, meta))
  }

  /** The three writes, one value per field's key. */
  function WriteFields(cfg: Dict<PyVal>, funcs: PyVal, args: PyVal, flags: PyVal): (r: Dict<PyVal>)
    requires Dicts.Valid(cfg)
    ensures Dicts.Valid(r)
    ensures FeatureFuncsKey in r.m && r.m[FeatureFuncsKey] == funcs
    ensures FeatureArgsKey in r.m && r.m[FeatureArgsKey] == args
    ensures FeatureGroupbyFlgKey in r.m && r.m[FeatureGroupbyFlgKey] == flags
    ensures forall k :: k != FeatureFuncsKey && k != FeatureArgsKey && k != FeatureGroupbyFlgKey ==> SameAt(cfg, r, k)
  {
    AnalysisKeysDistinct();
    PutThree(cfg, FeatureFuncsKey, funcs, FeatureArgsKey, args, FeatureGroupbyFlgKey, flags)
  }

  /** A key of the analysis results. */
  predicate IsAnalysisKey(k: string) {
    k == FeatureFuncsKey || k == FeatureArgsKey || k == FeatureGroupbyFlgKey
  }

  /** The keys `execute_model` writes once the input is admitted. */
  predicate IsWrittenKey(k: string) {
    IsAnalysisKey(k) || k == ExecFltrsKey || k == ExecAttrsKey
  }

  /** `cfg_model['exec_seq']`, when present. */
  function ExecSeqOf(cfg: Dict<PyVal>): Option<seq<string>>
    requires ExecSeqKey in cfg.m ==> IsStrList(cfg.m[ExecSeqKey])
  {
    if ExecSeqKey in cfg.m then Some(Strs(cfg.m[ExecSeqKey])) else None
  }

  /**
   * What `process_all_groups` computes once the external data is merged:
   * without grouping, the enrichment of the whole table, with no
   * attributes; with grouping, `AllGroupsSpec` on pandas' groups.
   */
  ghost function GroupsOutcome(groupBy: PyVal, data: Table, plan: Plan, split: Partition, ev: Eval): (r: Result<Outcome>)
    requires WellFormed(data) && PartitionOk(split)
    requires NoGrouping(groupBy) || GroupColumns(groupBy).Some?
    ensures r.Ok? && NoGrouping(groupBy) ==> r.value.attrs == EmptyTable()
  {
    if NoGrouping(groupBy) then
      var spec := EnrichFrom(Init(data), plan.execSeq, plan, ev);
      if spec.Err? then Err(spec.error) else Ok(Outcome(spec.value.data, EmptyTable(), NameSet(spec.value.filters)))
    else
      PartitionGroups(split, groupBy, data);
      AllGroupsSpec(groupBy, data, split(groupBy, data), plan, ev)
  }

  /**
   * `process_all_groups`: `_merge_external_data` first, its failure being
   * the call's, then the groups on the merged table.
   */
  ghost function ProcessOutcome(groupBy: PyVal, ext: PyVal, catalog: Option<Catalog>, join: LeftJoin,
                                data: Table, plan: Plan, split: Partition, ev: Eval): Result<Outcome>
    requires WellFormed(data) && PartitionOk(split) && JoinOk(join)
    requires Truthy(ext) ==> Mergeable(ext)
    requires catalog.Some? ==> TablesOk(catalog.value.datasets)
    requires NoGrouping(groupBy) || GroupColumns(groupBy).Some?
  {
    var merged := MergeExternal(data, ext, catalog, join);
    if merged.Err? then Err(merged.error)
    else
      MergeExternalWellFormed(data, ext, catalog, join);
      GroupsOutcome(groupBy, merged.value, plan, split, ev)
  }

  /**
   * Steps 1 and 2 of `execute_model` on an admitted input: a missing
   * `exec_seq` raises `KeyError`, a failed analysis (made on the input's own
   * columns) raises its error, and otherwise `process_all_groups` runs on
   * the plan the analysis built.
   */
  ghost function ExecSpec(groupBy: PyVal, execSeq: Option<seq<string>>, extCols: seq<string>,
                          features: map<string, Store.FeatureDef>, scope: Option<string>,
                          data: Table, ext: PyVal, catalog: Option<Catalog>, join: LeftJoin,
                          split: Partition, ev: Eval): Result<Outcome>
    requires WellFormed(data) && PartitionOk(split) && JoinOk(join)
    requires Truthy(ext) ==> Mergeable(ext)
    requires catalog.Some? ==> TablesOk(catalog.value.datasets)
    requires NoGrouping(groupBy) || GroupColumns(groupBy).Some?
  {
    if execSeq.None? then Err(KeyError(ExecSeqKey))
    else
      var a := AnalyzeSpec(features, scope, execSeq.value, data.columns, |execSeq.value|);
      if a.Err? then Err(a.error)
      else ProcessOutcome(groupBy, ext, catalog, join, data, Plan(execSeq.value, a.value, extCols), split, ev)
  }

  /** The call fails exactly as the computation does, and otherwise delivers its tables. */
  predicate Computes(r: Result<ExecOutput>, spec: Result<Outcome>) {
    && (r.Ok? <==> spec.Ok?)
    && (r.Err? ==> r.error == spec.error)
    && (r.Ok? ==> Delivers(r.value, spec.value))
  }

  /** The output carries the computed tables, each replaced by `None` when empty. */
  predicate Delivers(out: ExecOutput, o: Outcome) {
    && (out.filters.None? <==> IsEmpty(o.filters))
    && (out.filters.Some? ==> out.filters.value == o.filters)
    && (out.attrs.None? <==> IsEmpty(o.attrs))
    && (out.attrs.Some? ==> out.attrs.value == o.attrs)
  }

  /**
   * Step 2 of `execute_model`: `process_all_groups`, which merges the
   * external data into the input, then runs the plan on pandas' groups of
   * the merged table.
   */
  method RunGroups(groupBy: PyVal, ext: PyVal, catalog: Option<Catalog>, join: LeftJoin,
                   data: Table, plan: Plan, split: Partition, ev: Eval) returns (r: Result<Outcome>)
    requires WellFormed(data) && PartitionOk(split) && JoinOk(join)
    requires Truthy(ext) ==> Mergeable(ext)
    requires catalog.Some? ==> TablesOk(catalog.value.datasets)
    requires NoGrouping(groupBy) || GroupColumns(groupBy).Some?
    ensures r == ProcessOutcome(groupBy, ext, catalog, join, data, plan, split, ev)
    ensures r.Ok? && NoGrouping(groupBy) ==> r.value.attrs == EmptyTable()
    ensures r.Ok? ==> forall f :: f in r.value.execFltrs ==> f in plan.meta && !plan.meta[f].groupbyFlg
  {
    var merged := MergeExternalData(data, ext, catalog, join);
    if merged.Err? {
      return Err(merged.error);
    }
    MergeExternalWellFormed(data, ext, catalog, join);
    var groups := split(groupBy, merged.value);
    PartitionGroups(split, groupBy, merged.value);
    r := ProcessAllGroups(groupBy, merged.value, groups, plan, ev);
  }

  /** Steps 1 to 4 of `execute_model`: analysis, execution, tracking, and the output dictionary. */
  method RunAnalysed(cfgIn: Dict<PyVal>, execSeq: Option<seq<string>>, extCols: seq<string>, modelName: string,
                     data: Table, catalog: Option<Catalog>, join: LeftJoin, inputName: string, store: Store.FeatureStore,
                     split: Partition, ev: Eval)
    returns (r: Result<ExecOutput>, cfgOut: Dict<PyVal>)
    requires Dicts.Valid(cfgIn) && WellFormed(data) && PartitionOk(split) && JoinOk(join) && GroupByKey in cfgIn.m
    requires var gb := cfgIn.m[GroupByKey]; NoGrouping(gb) || GroupColumns(gb).Some?
    requires Truthy(ExternalOf(cfgIn)) ==> Mergeable(ExternalOf(cfgIn))
    requires catalog.Some? ==> TablesOk(catalog.value.datasets)
    ensures Computes(r, ExecSpec(cfgIn.m[GroupByKey], execSeq, extCols, store.features, store.Scope(Some(modelName)), data,
                                 ExternalOf(cfgIn), catalog, join, split, ev))
    ensures var a := if execSeq.None? then Err(KeyError(ExecSeqKey))
                     else AnalyzeSpec(store.features, store.Scope(Some(modelName)), execSeq.value, data.columns, |execSeq.value|);
      && (a.Err? ==> cfgOut == cfgIn)
      && (a.Ok? ==> HasAnalysis(cfgOut, execSeq.value, a.value))
    ensures forall k :: !IsWrittenKey(k) ==> SameAt(cfgIn, cfgOut, k)
    ensures GroupByKey in cfgOut.m && cfgOut.m[GroupByKey] == cfgIn.m[GroupByKey]
    ensures r.Ok? ==> OutputOk(r.value, cfgOut, cfgIn.m[GroupByKey], DictUtils.SafeGet(cfgIn, RowIdKey, PNone), inputName)
    ensures r.Ok? && NoGrouping(cfgIn.m[GroupByKey]) ==> r.value.attrs.None? && r.value.execAttrs == []
  {
    cfgOut := cfgIn;
    if execSeq.None? {
      return Err(KeyError(ExecSeqKey)), cfgOut;
    }
    var analysis := AnalyzeFeatures(store, execSeq.value, data.columns, Some(modelName));
    if analysis.Err? {
      return Err(analysis.error), cfgOut;
    }
    r, cfgOut := RunWithAnalysis(cfgIn, execSeq.value, analysis.value, extCols, data, catalog, join, inputName, split, ev);
  }

  /** Steps 2 to 4 once the analysis succeeded, its results first copied into the configuration. */
  method RunWithAnalysis(cfgIn: Dict<PyVal>, execSeq: seq<string>, meta: map<string, FeatureMeta>, extCols: seq<string>,
                         data: Table, catalog: Option<Catalog>, join: LeftJoin, inputName: string, split: Partition, ev: Eval)
    returns (r: Result<ExecOutput>, cfgOut: Dict<PyVal>)
    requires Dicts.Valid(cfgIn) && WellFormed(data) && PartitionOk(split) && JoinOk(join) && GroupByKey in cfgIn.m
    requires var gb := cfgIn.m[GroupByKey]; NoGrouping(gb) || GroupColumns(gb).Some?
    requires Truthy(ExternalOf(cfgIn)) ==> Mergeable(ExternalOf(cfgIn))
    requires catalog.Some? ==> TablesOk(catalog.value.datasets)
    ensures Computes(r, ProcessOutcome(cfgIn.m[GroupByKey], ExternalOf(cfgIn), catalog, join, data, Plan(execSeq, meta, extCols), split, ev))
    ensures HasAnalysis(cfgOut, execSeq, meta)
    ensures forall k :: !IsWrittenKey(k) ==> SameAt(cfgIn, cfgOut, k)
    ensures GroupByKey in cfgOut.m && cfgOut.m[GroupByKey] == cfgIn.m[GroupByKey]
    ensures r.Ok? ==> OutputOk(r.value, cfgOut, cfgIn.m[GroupByKey], DictUtils.SafeGet(cfgIn, RowIdKey, PNone), inputName)
    ensures r.Ok? && NoGrouping(cfgIn.m[GroupByKey]) ==> r.value.attrs.None? && r.value.execAttrs == []
  {
    var cfg1 := WriteAnalysis(cfgIn, execSeq, meta);
    AnalysisKeysDistinct();
    assert SameAt(cfgIn, cfg1, GroupByKey) && SameAt(cfgIn, cfg1, RowIdKey) && SameAt(cfgIn, cfg1, ExternalDataKey);
    r, cfgOut := RunPlanned(cfg1, Plan(execSeq, meta, extCols), data, catalog, join, inputName, split, ev);
    AnalysisKept(cfg1, cfgOut, execSeq, meta);
    forall k | !IsWrittenKey(k)
      ensures SameAt(cfgIn, cfgOut, k)
    {
      assert SameAt(cfgIn, cfg1, k) && SameAt(cfg1, cfgOut, k);
    }
  }

  /** Writing only the tracking keys leaves the analysis results in place. */
  lemma AnalysisKept(c1: Dict<PyVal>, c2: Dict<PyVal>, execSeq: seq<string>, meta: map<string, FeatureMeta>)
    requires HasAnalysis(c1, execSeq, meta)
    requires forall k :: k != ExecFltrsKey && k != ExecAttrsKey ==> SameAt(c1, c2, k)
    ensures HasAnalysis(c2, execSeq, meta)
  {
    AnalysisKeysDistinct();
    assert IsAnalysisKey(FeatureFuncsKey) && IsAnalysisKey(FeatureArgsKey) && IsAnalysisKey(FeatureGroupbyFlgKey);
    assert SameAt(c1, c2, FeatureFuncsKey) && SameAt(c1, c2, FeatureArgsKey) && SameAt(c1, c2, FeatureGroupbyFlgKey);
  }


  /** Steps 2 to 4: the tracking lists reset, the groups run, then tracking and the output dictionary. */
  method RunPlanned(cfgIn: Dict<PyVal>, plan: Plan, data: Table, catalog: Option<Catalog>, join: LeftJoin,
                    inputName: string, split: Partition, ev: Eval)
    returns (r: Result<ExecOutput>, cfgOut: Dict<PyVal>)
    requires Dicts.Valid(cfgIn) && WellFormed(data) && PartitionOk(split) && JoinOk(join) && GroupByKey in cfgIn.m
    requires var gb := cfgIn.m[GroupByKey]; NoGrouping(gb) || GroupColumns(gb).Some?
    requires Truthy(ExternalOf(cfgIn)) ==> Mergeable(ExternalOf(cfgIn))
    requires catalog.Some? ==> TablesOk(catalog.value.datasets)
    ensures Computes(r, ProcessOutcome(cfgIn.m[GroupByKey], ExternalOf(cfgIn), catalog, join, data, plan, split, ev))
    ensures forall k :: k != ExecFltrsKey && k != ExecAttrsKey ==>
      SameAt(cfgIn, cfgOut, k)
    ensures GroupByKey in cfgOut.m && cfgOut.m[GroupByKey] == cfgIn.m[GroupByKey]
    ensures r.Ok? ==> OutputOk(r.value, cfgOut, cfgIn.m[GroupByKey], DictUtils.SafeGet(cfgIn, RowIdKey, PNone), inputName)
    ensures r.Ok? && NoGrouping(cfgIn.m[GroupByKey]) ==> r.value.attrs.None? && r.value.execAttrs == []
  {
    var reset := ResetTracking(cfgIn);
    assert SameAt(cfgIn, reset, ExternalDataKey) by {
      TrackingKeysDistinct();
    }
    var outcome := RunGroups(cfgIn.m[GroupByKey], ExternalOf(reset), catalog, join, data, plan, split, ev);
    r, cfgOut := TrackOutcome(cfgIn, reset, outcome, inputName);
  }

  /** Steps 3 and 4 on the configuration `reset` left, once `process_all_groups` produced `outcome`. */
  method TrackOutcome(cfgIn: Dict<PyVal>, reset: Dict<PyVal>, outcome: Result<Outcome>, inputName: string)
    returns (r: Result<ExecOutput>, cfgOut: Dict<PyVal>)
    requires Dicts.Valid(cfgIn) && GroupByKey in cfgIn.m && reset == ResetTracking(cfgIn)
    ensures Computes(r, outcome)
    ensures forall k :: k != ExecFltrsKey && k != ExecAttrsKey ==>
      SameAt(cfgIn, cfgOut, k)
    ensures GroupByKey in cfgOut.m && cfgOut.m[GroupByKey] == cfgIn.m[GroupByKey]
    ensures r.Ok? ==> OutputOk(r.value, cfgOut, cfgIn.m[GroupByKey], DictUtils.SafeGet(cfgIn, RowIdKey, PNone), inputName)
    ensures r.Ok? && IsEmpty(outcome.value.attrs) ==> r.value.attrs.None? && r.value.execAttrs == []
  {
    cfgOut := reset;
    if outcome.Err? {
      return Err(outcome.error), cfgOut;
    }
    var out;
    out, cfgOut := TrackAndBuild(reset, outcome.value.filters, outcome.value.attrs, inputName);
    forall k | k != ExecFltrsKey && k != ExecAttrsKey
      ensures SameAt(cfgIn, cfgOut, k)
    {
      assert SameAt(cfgIn, reset, k) && SameAt(reset, cfgOut, k);
    }
    r := Ok(out);
  }


  /** `cfg_model['exec_fltrs'] = []` and `cfg_model['exec_attrs'] = []`; every other key stays. */
  function ResetTracking(cfg: Dict<PyVal>): (r: Dict<PyVal>)
    requires Dicts.Valid(cfg)
    ensures Dicts.Valid(r)
    ensures ExecFltrsKey in r.m && r.m[ExecFltrsKey] == PList([])
    ensures ExecAttrsKey in r.m && r.m[ExecAttrsKey] == PList([])
    ensures GroupByKey in cfg.m ==> GroupByKey in r.m && r.m[GroupByKey] == cfg.m[GroupByKey]
    ensures DictUtils.SafeGet(r, RowIdKey, PNone) == DictUtils.SafeGet(cfg, RowIdKey, PNone)
    ensures forall k :: k != ExecFltrsKey && k != ExecAttrsKey ==> SameAt(cfg, r, k)
  {
    TrackingKeysDistinct();
    var r := SetTracking(cfg, PList([]), PList([]));
    assert SameAt(cfg, r, GroupByKey) && SameAt(cfg, r, RowIdKey);
    r
  }
}
