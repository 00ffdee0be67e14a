/**
 * External datasets of a model (src/execution/external_data.py): checking
 * that the configured sources exist, listing their columns, loading them
 * from the context, and resolving one argument by priority.
 */
module ExternalData {
  import opened Wrappers
  import opened Seqs
  import opened Dicts
  import opened Frames
  import opened PyValues
  import opened Calculator
  import opened Context
  import opened Results
  import opened Strings
  import GroupBy
  import DictUtils

  const SourceKey := "source"
  const JoinOnKey := "join_on"
  const ColumnsKey := "columns"
  /** The default of `columns`: every column of the source. */
  const AllColumns := PStr("ALL")

  /** One `external_data` entry as the code reads it: a dictionary. */
  predicate EntryShape(conf: PyVal) {
    conf.PDict?
  }

  /** `external_data` as a dictionary. */
  predicate DictShape(ext: PyVal) {
    && ext.PDict?
    && (forall i :: 0 <= i < |ext.d.keys| ==> ext.d.keys[i] in ext.d.m)
  }

  /** `external_data` as a dictionary of dictionaries. */
  predicate ExternalShape(ext: PyVal) {
    && DictShape(ext)
    && (forall k :: k in ext.d.m ==> EntryShape(ext.d.m[k]))
  }

  /** An entry whose `columns`, when it is a list, holds column names. */
  predicate ColumnsNamed(conf: PyVal) {
    && conf.PDict?
    && (var cols := DictUtils.SafeGet(conf.d, ColumnsKey, AllColumns); cols.PList? ==> IsStrList(cols))
  }

  /** `external_data` whose entries name their columns. */
  predicate ColumnsShape(ext: PyVal) {
    && ExternalShape(ext)
    && (forall k :: k in ext.d.m ==> ColumnsNamed(ext.d.m[k]))
  }

  /**
   * An entry `get_external_column_names` can list: named columns, and a
   * string `source` wherever it looks one up.
   */
  predicate ListableEntry(conf: PyVal) {
    && ColumnsNamed(conf)
    && (DictUtils.SafeGet(conf.d, ColumnsKey, AllColumns) == AllColumns ==>
          var src := DictUtils.SafeGet(conf.d, SourceKey, PNone); Truthy(src) ==> src.PStr?)
  }

  predicate Listable(ext: PyVal) {
    && ExternalShape(ext)
    && (forall k :: k in ext.d.m ==> ListableEntry(ext.d.m[k]))
  }

  /** `join_on if isinstance(join_on, list) else [join_on]`: the join labels, of any type. */
  function JoinLabels(join: PyVal): (r: seq<PyVal>)
    ensures join.PList? ==> r == join.items
    ensures !join.PList? ==> r == [join]
  {
    if join.PList? then join.items else [join]
  }

  /** The join labels validation looks for: none for a falsy `join_on`. */
  function JoinColumns(join: PyVal): (r: seq<PyVal>)
    ensures !Truthy(join) ==> r == []
    ensures Truthy(join) && join.PStr? ==> r == [join]
    ensures Truthy(join) && join.PList? ==> r == join.items
  {
    if !Truthy(join) then [] else JoinLabels(join)
  }

  /** The first label that cannot be hashed, if any. */
  function FirstUnhashable(vs: seq<PyVal>): (r: Option<PyVal>)
    ensures r.None? <==> forall i :: 0 <= i < |vs| ==> Hashable(vs[i])
    ensures r.Some? ==> !Hashable(r.value) && r.value in vs
  {
    if |vs| == 0 then None
    else if !Hashable(vs[0]) then Some(vs[0])
    else FirstUnhashable(vs[1..])
  }

  /**
   * `[col for col in labels if col not in columns]` over labels that can be
   * hashed: a label is among string column names only when it is one of them.
   */
  function MissingLabels(vs: seq<PyVal>, columns: seq<string>): (r: seq<Label>)
    requires forall i :: 0 <= i < |vs| ==> Hashable(vs[i])
    ensures |r| == 0 <==> forall i :: 0 <= i < |vs| ==> vs[i].PStr? && vs[i].s in columns
    ensures forall l :: l in r ==> !(l.LStr? && l.s in columns)
    ensures |r| <= |vs|
  {
    if |vs| == 0 then []
    else
      var rest := MissingLabels(vs[1..], columns);
      assert forall i :: 1 <= i < |vs| ==> vs[i] == vs[1..][i - 1];
      if vs[0].PStr? && vs[0].s in columns then rest else [AsLabel(vs[0])] + rest
  }

  /** On column names, the labels found missing are the names `Missing` finds. */
  lemma {:induction false} MissingLabelsNames(xs: seq<string>, columns: seq<string>)
    ensures MissingLabels(StrList(xs).items, columns) == NameLabels(Missing(xs, columns))
  {
    if |xs| > 0 {
      MissingLabelsNames(xs[1..], columns);
      assert StrList(xs).items[1..] == StrList(xs[1..]).items;
      var rest := Missing(xs[1..], columns);
      if xs[0] !in columns {
        assert Missing(xs, columns) == [xs[0]] + rest;
        assert NameLabels([xs[0]] + rest) == [LStr(xs[0])] + NameLabels(rest);
      } else {
        assert Missing(xs, columns) == rest;
      }
    }
  }

  /** What can be wrong with one external source. */
  datatype Problem =
    | SourceNotSpecified(ext: string)
    | DatasetNotFound(source: string, available: seq<string>)
    | JoinColumnsNotFound(source: string, missing: seq<Label>, columns: seq<string>)

  /** The error message recorded for a problem, with the list of available names the code appends. */
  function Describe(p: Problem): string {
    match p
    case SourceNotSpecified(ext) => SourceNotSpecifiedMessage(ext)
    case DatasetNotFound(source, available) => DatasetNotFoundMessage(source, available)
    case JoinColumnsNotFound(source, missing, columns) => JoinColumnsNotFoundMessage(source, missing, columns)
  }

  function SourceNotSpecifiedMessage(ext: string): string {
    "External data '" + ext + "': 'source' not specified"
  }

  function DatasetNotFoundMessage(source: string, available: seq<string>): string {
    "External dataset '" + source + "' not found in context. Available: " + ListRepr(available)
  }

  function JoinColumnsNotFoundMessage(source: string, missing: seq<Label>, columns: seq<string>): string {
    "External dataset '" + source + "': join columns " + LabelsRepr(missing) + " not found. Available: " + ListRepr(columns)
  }

  /** What `ext_config.get` raises on an entry that is not a dictionary. */
  function NoGet(conf: PyVal): Failure
    requires !conf.PDict?
  {
    AttributeError("'" + TypeName(conf) + "' object has no attribute 'get'")
  }

  /**
   * The checks of one entry, as `validate_external_sources` runs them: the
   * problem recorded, if any, or the exception raised. A source must be
   * named, found in the context, and hold every join column. An entry that
   * is not a dictionary, a `source` that is not a string (`get_dataset`
   * calls `endswith` on it) and a join label that is a list or a
   * dictionary raise instead.
   */
  function EntryCheck(datasets: Dict<Table>, models: Dict<ModelRecord>, ext: string, conf: PyVal): Result<Option<Problem>>
  {
    if !conf.PDict? then Err(NoGet(conf))
    else
      var src := DictUtils.SafeGet(conf.d, SourceKey, PNone);
      if !Truthy(src) then Ok(Some(SourceNotSpecified(ext)))
      else if !src.PStr? then Err(NotAName(src))
      else
        var df := Lookup(datasets, models, src.s);
        if df.None? then Ok(Some(DatasetNotFound(src.s, datasets.keys)))
        else
          var join := JoinColumns(DictUtils.SafeGet(conf.d, JoinOnKey, PNone));
          var bad := FirstUnhashable(join);
          if bad.Some? then Err(UnhashableError(bad.value))
          else
            var missing := MissingLabels(join, df.value.columns);
            if |missing| > 0 then Ok(Some(JoinColumnsNotFound(src.s, missing, df.value.columns))) else Ok(None)
  }

  /** The problem an entry records; nothing for one that raises. */
  function EntryProblem(datasets: Dict<Table>, models: Dict<ModelRecord>, ext: string, conf: PyVal): Option<Problem> {
    var c := EntryCheck(datasets, models, ext, conf);
    if c.Ok? then c.value else None
  }

  /** The exception an entry raises, if any. */
  function EntryRaise(datasets: Dict<Table>, models: Dict<ModelRecord>, ext: string, conf: PyVal): Option<Failure> {
    var c := EntryCheck(datasets, models, ext, conf);
    if c.Err? then Some(c.error) else None
  }

  /**
   * An entry passes exactly when it is a dictionary whose source is a
   * name found in the context and holds every join label as a column; it
   * raises exactly when it is not a dictionary, its source is truthy but
   * not a string, or a join label of a found source cannot be hashed.
   */
  lemma EntryCheckIff(datasets: Dict<Table>, models: Dict<ModelRecord>, ext: string, conf: PyVal)
    ensures conf.PDict? ==>
      var src := DictUtils.SafeGet(conf.d, SourceKey, PNone);
      var join := JoinColumns(DictUtils.SafeGet(conf.d, JoinOnKey, PNone));
      && (EntryCheck(datasets, models, ext, conf) == Ok(None) <==>
            (&& Truthy(src) && src.PStr? && Lookup(datasets, models, src.s).Some?
             && forall i :: 0 <= i < |join| ==> join[i].PStr? && join[i].s in Lookup(datasets, models, src.s).value.columns))
      && (EntryCheck(datasets, models, ext, conf).Err? <==>
            (|| (Truthy(src) && !src.PStr?)
             || (&& Truthy(src) && src.PStr? && Lookup(datasets, models, src.s).Some?
                 && exists i :: 0 <= i < |join| && !Hashable(join[i]))))
    ensures !conf.PDict? ==> EntryCheck(datasets, models, ext, conf) == Err(NoGet(conf))
  {
  }

  /** Each entry's own problem, in entry order. */
  function EntryProblems(datasets: Dict<Table>, models: Dict<ModelRecord>, ext: PyVal): (ps: seq<Option<Problem>>)
    requires DictShape(ext)
    ensures |ps| == |ext.d.keys|
  {
    seq(|ext.d.keys|, j requires 0 <= j < |ext.d.keys| => EntryProblem(datasets, models, ext.d.keys[j], ext.d.m[ext.d.keys[j]]))
  }

  lemma EntryProblemAt(datasets: Dict<Table>, models: Dict<ModelRecord>, ext: PyVal, j: nat)
    requires DictShape(ext) && j < |ext.d.keys|
    ensures EntryProblems(datasets, models, ext)[j] == EntryProblem(datasets, models, ext.d.keys[j], ext.d.m[ext.d.keys[j]])
  {
  }

  /** Each entry's own exception, in entry order. */
  function EntryRaises(datasets: Dict<Table>, models: Dict<ModelRecord>, ext: PyVal): (fs: seq<Option<Failure>>)
    requires DictShape(ext)
    ensures |fs| == |ext.d.keys|
    ensures forall j :: 0 <= j < |fs| ==> fs[j] == EntryRaise(datasets, models, ext.d.keys[j], ext.d.m[ext.d.keys[j]])
  {
    seq(|ext.d.keys|, j requires 0 <= j < |ext.d.keys| => EntryRaise(datasets, models, ext.d.keys[j], ext.d.m[ext.d.keys[j]]))
  }

  /** What validation raises: the exception of the first entry that raises. */
  function Raised(datasets: Dict<Table>, models: Dict<ModelRecord>, ext: PyVal): Option<Failure>
    requires DictShape(ext)
  {
    FirstFailure(EntryRaises(datasets, models, ext), 0)
  }

  /** Validation raises exactly when some entry raises, and then that entry's exception. */
  lemma RaisedIff(datasets: Dict<Table>, models: Dict<ModelRecord>, ext: PyVal)
    requires DictShape(ext)
    ensures Raised(datasets, models, ext).None? <==>
      forall j :: 0 <= j < |ext.d.keys| ==> EntryRaise(datasets, models, ext.d.keys[j], ext.d.m[ext.d.keys[j]]).None?
    ensures Raised(datasets, models, ext).Some? ==>
      exists j :: 0 <= j < |ext.d.keys| && EntryRaise(datasets, models, ext.d.keys[j], ext.d.m[ext.d.keys[j]]) == Raised(datasets, models, ext)
  {
    FirstFailureNone(EntryRaises(datasets, models, ext), 0);
  }

  /** The problems of the entries of `ext` from position `from` on, in entry order. */
  function Problems(datasets: Dict<Table>, models: Dict<ModelRecord>, ext: PyVal, from: nat): (r: seq<Problem>)
    requires DictShape(ext) && from <= |ext.d.keys|
  {
    Somes(EntryProblems(datasets, models, ext), from)
  }

  /** Validation finds a problem exactly when some entry has one. */
  lemma ProblemsIff(datasets: Dict<Table>, models: Dict<ModelRecord>, ext: PyVal, from: nat)
    requires DictShape(ext) && from <= |ext.d.keys|
    ensures |Problems(datasets, models, ext, from)| > 0 <==>
      exists j :: from <= j < |ext.d.keys| && EntryProblem(datasets, models, ext.d.keys[j], ext.d.m[ext.d.keys[j]]).Some?
  {
    var ps := EntryProblems(datasets, models, ext);
    SomesNonEmpty(ps, from);
    if exists j :: from <= j < |ext.d.keys| && EntryProblem(datasets, models, ext.d.keys[j], ext.d.m[ext.d.keys[j]]).Some? {
      var j :| from <= j < |ext.d.keys| && EntryProblem(datasets, models, ext.d.keys[j], ext.d.m[ext.d.keys[j]]).Some?;
      EntryProblemAt(datasets, models, ext, j);
    }
    if exists j :: from <= j < |ps| && ps[j].Some? {
      var j :| from <= j < |ps| && ps[j].Some?;
      EntryProblemAt(datasets, models, ext, j);
    }
  }

  function Descriptions(ps: seq<Problem>): (r: seq<string>)
    ensures |r| == |ps|
  {
    if |ps| == 0 then [] else [Describe(ps[0])] + Descriptions(ps[1..])
  }

  /** One entry's share of the messages: its own problem, if any, comes before those of the later entries. */
  lemma DescriptionsStep(ps: seq<Option<Problem>>, i: nat, errs: seq<string>, all: seq<string>)
    requires i < |ps| && errs + Descriptions(Somes(ps, i)) == all
    ensures (if ps[i].Some? then errs + [Describe(ps[i].value)] else errs) + Descriptions(Somes(ps, i + 1)) == all
  {
    var rest := Somes(ps, i + 1);
    if ps[i].Some? {
      assert Somes(ps, i) == [ps[i].value] + rest;
      assert ([ps[i].value] + rest)[1..] == rest;
    } else {
      assert Somes(ps, i) == rest;
    }
  }

  /**
   * The loop of `validate_external_sources`: one `add_error` per problem
   * entry, in entry order, until an entry raises.
   */
  method RecordProblems(r: OperationResult, datasets: Dict<Table>, models: Dict<ModelRecord>, ext: PyVal)
    returns (raised: Option<Failure>)
    requires DictShape(ext)
    requires r.warnings == [] && r.success && r.errors == []
    modifies r
    ensures raised == Raised(datasets, models, ext)
    ensures raised.None? ==> r.warnings == [] && r.Consistent() && (r.success <==> r.errors == [])
    ensures raised.None? ==> r.errors == Descriptions(Problems(datasets, models, ext, 0))
  {
    ghost var all := Descriptions(Problems(datasets, models, ext, 0));
    ghost var fs := EntryRaises(datasets, models, ext);
    var i := 0;
    while i < |ext.d.keys|
      invariant 0 <= i <= |ext.d.keys|
      invariant r.warnings == [] && (r.success <==> r.errors == [])
      invariant r.errors + Descriptions(Problems(datasets, models, ext, i)) == all
      invariant FirstFailure(fs, 0) == FirstFailure(fs, i)
    {
      raised := RecordEntry(r, datasets, models, ext, i, all);
      if raised.Some? {
        return;
      }
      i := i + 1;
    }
    assert Problems(datasets, models, ext, i) == [];
    raised := None;
  }

  /** One pass of the loop: the entry's exception, or its problem, if any, as the next error. */
  method RecordEntry(r: OperationResult, datasets: Dict<Table>, models: Dict<ModelRecord>, ext: PyVal, i: nat,
                     ghost all: seq<string>) returns (raised: Option<Failure>)
    requires DictShape(ext) && i < |ext.d.keys|
    requires r.warnings == [] && (r.success <==> r.errors == [])
    requires r.errors + Descriptions(Problems(datasets, models, ext, i)) == all
    modifies r
    ensures raised == EntryRaises(datasets, models, ext)[i]
    ensures r.warnings == [] && (r.success <==> r.errors == [])
    ensures raised.None? ==> r.errors + Descriptions(Problems(datasets, models, ext, i + 1)) == all
  {
    ghost var ps := EntryProblems(datasets, models, ext);
    var c := CheckEntry(datasets, models, ext, i);
    if c.Err? {
      return Some(c.error);
    }
    DescriptionsStep(ps, i, r.errors, all);
    EntryProblemAt(datasets, models, ext, i);
    if c.value.Some? {
      r.AddError(Describe(c.value.value));
    }
    raised := None;
  }

  /** The checks of the entry at position `i`. */
  method CheckEntry(datasets: Dict<Table>, models: Dict<ModelRecord>, ext: PyVal, i: nat) returns (c: Result<Option<Problem>>)
    requires DictShape(ext) && i < |ext.d.keys|
    ensures c == EntryCheck(datasets, models, ext.d.keys[i], ext.d.m[ext.d.keys[i]])
  {
    var name := ext.d.keys[i];
    c := EntryCheck(datasets, models, name, ext.d.m[name]);
  }

  /**
   * `validate_external_sources`: succeeds with nothing to check; raises
   * what the first raising entry raises; otherwise one error per problem
   * entry, in entry order, and success iff none.
   */
  method ValidateExternalSources(ctx: GabedaContext, cfg: Dict<PyVal>) returns (r: Result<OperationResult>)
    requires Truthy(DictUtils.SafeGet(cfg, "external_data", PNone)) ==> DictShape(DictUtils.SafeGet(cfg, "external_data", PNone))
    ensures r.Ok? ==> fresh(r.value) && r.value.warnings == [] && r.value.Consistent()
    ensures r.Ok? ==> (r.value.success <==> r.value.errors == [])
    ensures var ext := DictUtils.SafeGet(cfg, "external_data", PNone);
      !Truthy(ext) ==> r.Ok? && r.value.success && r.value.errors == []
    ensures var ext := DictUtils.SafeGet(cfg, "external_data", PNone);
      Truthy(ext) && Raised(ctx.datasets, ctx.models, ext).Some? ==> r == Err(Raised(ctx.datasets, ctx.models, ext).value)
    ensures var ext := DictUtils.SafeGet(cfg, "external_data", PNone);
      Truthy(ext) && Raised(ctx.datasets, ctx.models, ext).None? ==>
        r.Ok? && r.value.errors == Descriptions(Problems(ctx.datasets, ctx.models, ext, 0))
  {
    var res := new OperationResult(true);
    var ext := DictUtils.SafeGet(cfg, "external_data", PNone);
    if Truthy(ext) {
      var raised := RecordProblems(res, ctx.datasets, ctx.models, ext);
      if raised.Some? {
        return Err(raised.value);
      }
    }
    return Ok(res);
  }

  /** `get_external_column_list`: `cfg['ext_cols']['list']`, an empty list when either is absent. */
  function ExternalColumnList(cfg: Dict<PyVal>): (r: PyVal)
    requires var ext := DictUtils.SafeGet(cfg, "ext_cols", PDict(Empty())); ext.PDict?
    ensures "ext_cols" !in cfg.m ==> r == PList([])
    ensures "ext_cols" in cfg.m && "list" !in cfg.m["ext_cols"].d.m ==> r == PList([])
    ensures "ext_cols" in cfg.m && "list" in cfg.m["ext_cols"].d.m ==> r == cfg.m["ext_cols"].d.m["list"]
  {
    var ext := DictUtils.SafeGet(cfg, "ext_cols", PDict(Empty()));
    DictUtils.SafeGet(ext.d, "list", PList([]))
  }

  /** The label of the source an argument came from. */
  datatype Tag = AggResults | External | DataIn

  /**
   * `resolve_argument_source`: an attribute computed in this group first;
   * then, for an external column, the first value from the external table
   * or else from the data; then a whole data column. Anything else raises
   * `ValueError`.
   */
  function ResolveArgumentSource(arg: string, data: Table, agg: Dict<Value>, extCols: seq<string>, extData: Option<Table>): (r: Result<(Arg, Tag)>)
    requires WellFormed(data) && Dicts.Valid(agg) && (extData.Some? ==> WellFormed(extData.value))
    ensures arg in agg.m ==> r == Ok((Scalar(agg.m[arg]), AggResults))
    ensures arg !in agg.m && arg in extCols && extData.Some? && arg in extData.value.columns && extData.value.rows > 0 ==>
      r == Ok((Scalar(Col(extData.value, arg)[0]), External))
    ensures arg !in agg.m && arg in extCols && (extData.None? || arg !in extData.value.columns) && arg in data.columns && data.rows > 0 ==>
      r == Ok((Scalar(Col(data, arg)[0]), External))
    ensures arg !in agg.m && arg in extCols && (extData.None? || arg !in extData.value.columns) && arg !in data.columns ==>
      r == Err(ValueError(ExternalArgMissing(arg)))
    ensures arg !in agg.m && arg !in extCols && arg in data.columns ==> r == Ok((Column(Col(data, arg)), DataIn))
    ensures arg !in agg.m && arg !in extCols && arg !in data.columns ==> r == Err(ValueError(ArgNotFound(arg, data, agg, extCols)))
    ensures r.Ok? && r.value.1 == DataIn <==> r.Ok? && r.value.0.Column?
  {
    if arg in agg.m then Ok((Scalar(agg.m[arg]), AggResults))
    else if arg in extCols then
      if extData.Some? && arg in extData.value.columns then
        if extData.value.rows == 0 then Err(IndexError(EmptyIndexMessage))
        else Ok((Scalar(Col(extData.value, arg)[0]), External))
      else if arg in data.columns then
        if data.rows == 0 then Err(IndexError(EmptyIndexMessage))
        else Ok((Scalar(Col(data, arg)[0]), External))
      else Err(ValueError(ExternalArgMissing(arg)))
    else if arg in data.columns then Ok((Column(Col(data, arg)), DataIn))
    else Err(ValueError(ArgNotFound(arg, data, agg, extCols)))
  }

  function ExternalArgMissing(arg: string): string {
    "Argument '" + arg + "' is in external column list but not found in data_in or ext_data"
  }

  /** The message for a name found nowhere lists, in order, the data columns, the attributes computed so far and the external columns. */
  function ArgNotFound(arg: string, data: Table, agg: Dict<Value>, extCols: seq<string>): string {
    "Argument '" + arg + "' not found in agg_results, external columns, or data_in. "
    + "Available in data_in: " + ListRepr(data.columns) + ", "
    + "Available in agg_results: " + ListRepr(agg.keys) + ", "
    + "External columns: " + ListRepr(extCols)
  }

  /**
   * Without a separate external table, this resolver and the one written
   * out inside `process_group` pick the same value from the same source; they
   * differ only in the error raised for an external column that is missing
   * (`ValueError` here, `KeyError` there).
   */
  lemma AgreesWithProcessGroup(feature: string, arg: string, st: GroupBy.GroupState, extCols: seq<string>)
    requires GroupBy.StateOk(st)
    ensures var mine := ResolveArgumentSource(arg, st.data, st.agg, extCols, None);
      var theirs := GroupBy.ArgSource(feature, arg, st, extCols);
      && (mine.Ok? <==> theirs.Ok?)
      && (mine.Ok? ==> mine.value.0 == theirs.value.0)
      && (mine.Ok? ==> (mine.value.1 == AggResults <==> theirs.value.1 == GroupBy.FromAgg))
      && (mine.Ok? ==> (mine.value.1 == DataIn <==> theirs.value.1 == GroupBy.FromData))
      && (mine.Err? && !(arg !in st.agg.m && arg in extCols && arg !in st.data.columns) ==> mine.error == theirs.error || (mine.error.ValueError? && theirs.error.ValueError?))
  {
  }

  /**
   * One entry of `prepare_external_data`: `KeyError` without `source`,
   * `AttributeError` from `get_dataset` when it is not a string, otherwise
   * the dataset the context finds for it, or nothing when it finds none.
   */
  function EntryLoad(datasets: Dict<Table>, models: Dict<ModelRecord>, conf: PyVal): (r: Result<Option<Table>>)
    requires EntryShape(conf)
    ensures r.Err? <==> SourceKey !in conf.d.m || !conf.d.m[SourceKey].PStr?
    ensures SourceKey !in conf.d.m ==> r == Err(KeyError(SourceKey))
    ensures SourceKey in conf.d.m && !conf.d.m[SourceKey].PStr? ==> r.Err? && r.error.AttributeError?
    ensures r.Ok? && r.value.Some? <==>
      SourceKey in conf.d.m && conf.d.m[SourceKey].PStr? && Lookup(datasets, models, conf.d.m[SourceKey].s).Some?
    ensures r.Ok? && r.value.Some? ==> r.value.value == Lookup(datasets, models, conf.d.m[SourceKey].s).value
  {
    if SourceKey !in conf.d.m then Err(KeyError(SourceKey))
    else if conf.d.m[SourceKey].PStr? then Ok(Lookup(datasets, models, conf.d.m[SourceKey].s))
    else Err(NotAName(conf.d.m[SourceKey]))
  }

  /** Every entry's load, in entry order. */
  function EntryLoads(datasets: Dict<Table>, models: Dict<ModelRecord>, ext: PyVal): (ls: seq<Result<Option<Table>>>)
    requires ExternalShape(ext)
    ensures |ls| == |ext.d.keys|
    ensures forall j :: 0 <= j < |ls| ==> ls[j] == EntryLoad(datasets, models, ext.d.m[ext.d.keys[j]])
  {
    seq(|ext.d.keys|, j requires 0 <= j < |ext.d.keys| => EntryLoad(datasets, models, ext.d.m[ext.d.keys[j]]))
  }

  /** The first `n` loads gathered by name: a found table is stored, the first failure raises. */
  function Gather(names: seq<string>, loads: seq<Result<Option<Table>>>, n: nat): (r: Result<map<string, Table>>)
    requires |names| == |loads| && n <= |names|
  {
    if n == 0 then Ok(map[])
    else
      var prev := Gather(names, loads, n - 1);
      if prev.Err? then prev
      else if loads[n - 1].Err? then Err(loads[n - 1].error)
      else if loads[n - 1].value.Some? then Ok(prev.value[names[n - 1] := loads[n - 1].value.value])
      else prev
  }

  /** With distinct names, every found table is stored under its own name, and nothing else is. */
  lemma {:induction false} GatherEntries(names: seq<string>, loads: seq<Result<Option<Table>>>, n: nat)
    requires |names| == |loads| && n <= |names| && NoDup(names)
    ensures var r := Gather(names, loads, n);
      r.Ok? ==> forall j :: 0 <= j < n ==>
        && loads[j].Ok?
        && (names[j] in r.value <==> loads[j].value.Some?)
        && (names[j] in r.value ==> r.value[names[j]] == loads[j].value.value)
    ensures var r := Gather(names, loads, n);
      r.Ok? ==> forall name :: name in r.value ==> exists j :: 0 <= j < n && names[j] == name
  {
    if n > 0 {
      GatherEntries(names, loads, n - 1);
      assert forall j :: 0 <= j < n - 1 ==> names[j] != names[n - 1];
    }
  }

  /** The next load either ends the gathering with its failure or is stored when it found a table. */
  lemma GatherNext(names: seq<string>, loads: seq<Result<Option<Table>>>, n: nat, acc: map<string, Table>)
    requires |names| == |loads| && n < |names| && Gather(names, loads, n) == Ok(acc)
    ensures loads[n].Err? ==> Gather(names, loads, |names|) == Err(loads[n].error)
    ensures loads[n].Ok? ==>
      Gather(names, loads, n + 1) == Ok(if loads[n].value.Some? then acc[names[n] := loads[n].value.value] else acc)
  {
    if loads[n].Err? {
      GatherStopsAt(names, loads, n + 1);
    }
  }

  /** Gathering fails exactly when some load failed, and then with the first failure. */
  lemma {:induction false} GatherFails(names: seq<string>, loads: seq<Result<Option<Table>>>, n: nat)
    requires |names| == |loads| && n <= |names|
    ensures Gather(names, loads, n).Err? <==> exists j :: 0 <= j < n && loads[j].Err?
  {
    if n > 0 {
      GatherFails(names, loads, n - 1);
    }
  }

  /** Once gathering has failed, later loads change nothing. */
  lemma {:induction false} GatherStopsAt(names: seq<string>, loads: seq<Result<Option<Table>>>, n: nat)
    requires |names| == |loads| && n <= |names| && Gather(names, loads, n).Err?
    ensures Gather(names, loads, |names|) == Gather(names, loads, n)
    decreases |names| - n
  {
    if n < |names| {
      GatherStopsAt(names, loads, n + 1);
    }
  }

  /** `prepare_external_data`: the entries' loads gathered by entry name. */
  function Prepared(datasets: Dict<Table>, models: Dict<ModelRecord>, ext: PyVal): Result<map<string, Table>>
    requires ExternalShape(ext)
  {
    Gather(ext.d.keys, EntryLoads(datasets, models, ext), |ext.d.keys|)
  }

  /**
   * The loaded tables are exactly the sources found, each under its entry's
   * name; the loading fails exactly when some entry has no `source` or
   * one that is not a string.
   */
  lemma PreparedMeaning(datasets: Dict<Table>, models: Dict<ModelRecord>, ext: PyVal)
    requires ExternalShape(ext) && NoDup(ext.d.keys)
    ensures var r := Prepared(datasets, models, ext);
      r.Err? <==> exists j :: (&& 0 <= j < |ext.d.keys|
                               && (SourceKey !in ext.d.m[ext.d.keys[j]].d.m || !ext.d.m[ext.d.keys[j]].d.m[SourceKey].PStr?))
    ensures var r := Prepared(datasets, models, ext);
      r.Ok? ==> forall j :: 0 <= j < |ext.d.keys| ==>
        var conf := ext.d.m[ext.d.keys[j]];
        && (ext.d.keys[j] in r.value <==> conf.d.m[SourceKey].PStr? && Lookup(datasets, models, conf.d.m[SourceKey].s).Some?)
        && (ext.d.keys[j] in r.value ==> r.value[ext.d.keys[j]] == Lookup(datasets, models, conf.d.m[SourceKey].s).value)
    ensures var r := Prepared(datasets, models, ext);
      r.Ok? ==> forall name :: name in r.value ==> name in ext.d.m
  {
    var loads := EntryLoads(datasets, models, ext);
    GatherFails(ext.d.keys, loads, |ext.d.keys|);
    GatherEntries(ext.d.keys, loads, |ext.d.keys|);
  }

  /** The loop of `prepare_external_data`. */
  method PrepareExternalData(ctx: GabedaContext, cfg: Dict<PyVal>) returns (r: Result<map<string, Table>>)
    requires ExternalShape(DictUtils.SafeGet(cfg, "external_data", PDict(Empty())))
    ensures r == Prepared(ctx.datasets, ctx.models, DictUtils.SafeGet(cfg, "external_data", PDict(Empty())))
  {
    r := LoadAll(ctx, DictUtils.SafeGet(cfg, "external_data", PDict(Empty())));
  }

  /** The loop of `prepare_external_data` over the entries of `ext`, in entry order. */
  method LoadAll(ctx: GabedaContext, ext: PyVal) returns (r: Result<map<string, Table>>)
    requires ExternalShape(ext)
    ensures r == Prepared(ctx.datasets, ctx.models, ext)
  {
    ghost var loads := EntryLoads(ctx.datasets, ctx.models, ext);
    var names := ext.d.keys;
    var loaded: map<string, Table> := map[];
    var i := 0;
    while i < |names|
      invariant 0 <= i <= |names|
      invariant Gather(names, loads, i) == Ok(loaded)
    {
      var conf := ext.d.m[names[i]];
      var load := LoadEntry(ctx, conf);
      GatherNext(names, loads, i, loaded);
      if load.Err? {
        return Err(load.error);
      }
      if load.value.Some? {
        loaded := loaded[names[i] := load.value.value];
      }
      i := i + 1;
    }
    return Ok(loaded);
  }

  /** `ext_config['source']`, then `context.get_dataset(source)`. */
  method LoadEntry(ctx: GabedaContext, conf: PyVal) returns (r: Result<Option<Table>>)
    requires EntryShape(conf)
    ensures r == EntryLoad(ctx.datasets, ctx.models, conf)
  {
    if SourceKey !in conf.d.m {
      return Err(KeyError(SourceKey));
    }
    var source := conf.d.m[SourceKey];
    if !source.PStr? {
      return Err(NotAName(source));
    }
    return Ok(ctx.GetDataset(source.s));
  }

  /**
   * The columns the entry contributes: with `columns` equal to `'ALL'`, every
   * column of its source dataset when found; with a list, that list.
   */
  function EntryColumns(datasets: Dict<Table>, models: Dict<ModelRecord>, conf: PyVal): seq<string>
    requires ListableEntry(conf)
  {
    var cols := DictUtils.SafeGet(conf.d, ColumnsKey, AllColumns);
    if cols == AllColumns then
      var src := DictUtils.SafeGet(conf.d, SourceKey, PNone);
      if Truthy(src) then
        var df := Lookup(datasets, models, src.s);
        if df.Some? then df.value.columns else []
      else []
    else if cols.PList? then Strs(cols)
    else []
  }

  /** The columns of the first `n` entries, in entry order, repeats included. */
  function AllEntryColumns(datasets: Dict<Table>, models: Dict<ModelRecord>, ext: PyVal, n: nat): seq<string>
    requires Listable(ext) && n <= |ext.d.keys|
  {
    if n == 0 then []
    else AllEntryColumns(datasets, models, ext, n - 1) + EntryColumns(datasets, models, ext.d.m[ext.d.keys[n - 1]])
  }

  lemma AllEntryColumnsNext(datasets: Dict<Table>, models: Dict<ModelRecord>, ext: PyVal, n: nat)
    requires Listable(ext) && n < |ext.d.keys|
    ensures AllEntryColumns(datasets, models, ext, n + 1) ==
      AllEntryColumns(datasets, models, ext, n) + EntryColumns(datasets, models, ext.d.m[ext.d.keys[n]])
  {
  }

  /**
   * `get_external_column_names`: every entry's columns, each name once, in
   * order of first appearance.
   */
  method ExternalColumnNames(ctx: GabedaContext, cfg: Dict<PyVal>) returns (unique: seq<string>)
    requires Listable(DictUtils.SafeGet(cfg, "external_data", PDict(Empty())))
    ensures var ext := DictUtils.SafeGet(cfg, "external_data", PDict(Empty()));
      unique == Dedup(AllEntryColumns(ctx.datasets, ctx.models, ext, |ext.d.keys|))
    ensures NoDup(unique)
  {
    var ext := DictUtils.SafeGet(cfg, "external_data", PDict(Empty()));
    var all := CollectEntryColumns(ctx, ext);
    unique := DedupInOrder(all);
  }

  /** The loop over the entries, concatenating their columns. */
  method CollectEntryColumns(ctx: GabedaContext, ext: PyVal) returns (all: seq<string>)
    requires Listable(ext)
    ensures all == AllEntryColumns(ctx.datasets, ctx.models, ext, |ext.d.keys|)
  {
    all := [];
    var names := ext.d.keys;
    var i := 0;
    while i < |names|
      invariant 0 <= i <= |names|
      invariant all == AllEntryColumns(ctx.datasets, ctx.models, ext, i)
    {
      var cols := EntryColumns(ctx.datasets, ctx.models, ext.d.m[names[i]]);
      AllEntryColumnsNext(ctx.datasets, ctx.models, ext, i);
      all := all + cols;
      i := i + 1;
    }
  }

  /** The `seen`-set loop: first occurrences, in order. */
  method DedupInOrder(xs: seq<string>) returns (unique: seq<string>)
    ensures unique == Dedup(xs)
  {
    var seen: set<string> := {};
    unique := [];
    var i := 0;
    while i < |xs|
      invariant 0 <= i <= |xs|
      invariant unique == Dedup(xs[..i])
      invariant forall x :: x in seen <==> x in xs[..i]
    {
      var x := xs[i];
      DedupNext(xs, i);
      if x !in seen {
        seen := seen + {x};
        unique := unique + [x];
      }
      i := i + 1;
    }
    assert xs[..|xs|] == xs;
  }
}
