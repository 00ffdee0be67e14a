/**
 * The execution context (src/core/context.py): named datasets, the record
 * of every executed model, and an execution history. A model's input can
 * be looked up as `<model>_input` through the dataset name the model
 * recorded. Timestamps and the run identifier come from the clock and are
 * not modelled.
 */
module Context {
  import opened Wrappers
  import opened Seqs
  import opened Strings
  import opened Dicts
  import opened Frames
  import opened PyValues

  /** The `outputs` dict a model run hands over; absent lists are empty. */
  datatype Outputs = Outputs(
    inputDatasetName: Option<string>,
    filters: Option<Table>,
    attrs: Option<Table>,
    execFltrs: seq<string>,
    execAttrs: seq<string>)

  /** What `models[name]` records of one run. */
  datatype ModelRecord = ModelRecord(
    outputs: Outputs,
    cfgModel: Option<PyVal>,
    datasetsGenerated: seq<string>,
    inputDatasetName: Option<string>)

  /** One history entry, without its timestamp. */
  datatype Entry =
    | DatasetStored(name: string, rows: nat, columns: nat, metadata: Option<PyVal>)
    | ModelExecuted(model: string, datasets: seq<string>, inputDataset: Option<string>)

  const InputSuffix: string := "_input"

  /** `name` is `<model>_input` for a recorded model. */
  predicate IsInputAlias(name: string, models: Dict<ModelRecord>) {
    EndsWith(name, InputSuffix) && name[..|name| - |InputSuffix|] in models.m
  }

  /**
   * `get_dataset`: `<model>_input` of a recorded model resolves through the
   * dataset name that model recorded (nothing when it recorded none); any
   * other name is looked up as is.
   */
  function Lookup(datasets: Dict<Table>, models: Dict<ModelRecord>, name: string): (r: Option<Table>)
    ensures !IsInputAlias(name, models) ==> r == Get(datasets, name)
  {
    if IsInputAlias(name, models) then
      var input := models.m[name[..|name| - |InputSuffix|]].inputDatasetName;
      if input.Some? && |input.value| > 0 then Get(datasets, input.value) else None
    else Get(datasets, name)
  }

  /** `get_dataset` called with a name that is not a string fails at `name.endswith`. */
  function NotAName(name: PyVal): Failure
    requires !name.PStr?
  {
    AttributeError("'" + TypeName(name) + "' object has no attribute 'endswith'")
  }

  /** A name whose last letter is not the `t` of `_input` is never an input alias. */
  lemma NotInputAlias(name: string, models: Dict<ModelRecord>)
    requires |name| > 0 && name[|name| - 1] != 't'
    ensures !IsInputAlias(name, models)
  {
  }

  /** Every table the context holds is well formed. */
  predicate TablesOk(datasets: Dict<Table>) {
    forall n :: n in datasets.m ==> WellFormed(datasets.m[n])
  }

  /** Storing a dataset makes it the answer for its name, unless the name is a model's input alias. */
  lemma LookupAfterStore(datasets: Dict<Table>, models: Dict<ModelRecord>, name: string, t: Table)
    requires Dicts.Valid(datasets) && !IsInputAlias(name, models)
    ensures Lookup(Put(datasets, name, t), models, name) == Some(t)
  {
  }

  /** `<model>_input` follows the model's recorded input dataset, whatever is stored under the alias itself. */
  lemma LookupInputLineage(datasets: Dict<Table>, models: Dict<ModelRecord>, model: string, input: string)
    requires model in models.m && models.m[model].inputDatasetName == Some(input) && |input| > 0
    ensures Lookup(datasets, models, model + InputSuffix) == Get(datasets, input)
  {
    var name := model + InputSuffix;
    assert name[|name| - |InputSuffix|..] == InputSuffix;
    assert name[..|name| - |InputSuffix|] == model;
  }

  /** Filter columns worth storing: `row_id` when present, then each present new filter, once. */
  function FilterColumnsToKeep(columns: seq<string>, execFltrs: seq<string>): (r: seq<string>)
    ensures NoDup(r)
    ensures forall c :: c in r <==> c in columns && (c == "row_id" || c in execFltrs)
    ensures "row_id" in columns ==> r[0] == "row_id"
  {
    AddPresent(if "row_id" in columns then ["row_id"] else [], execFltrs, columns)
  }

  /** The attribute columns that are not new attributes, in table order: the group columns. */
  function NonExec(columns: seq<string>, execAttrs: seq<string>): (r: seq<string>)
    ensures forall c :: c in r <==> c in columns && c !in execAttrs
  {
    if |columns| == 0 then []
    else
      var init := NonExec(columns[..|columns| - 1], execAttrs);
      var last := columns[|columns| - 1];
      assert forall c :: c in columns <==> c in columns[..|columns| - 1] || c == last;
      if last !in execAttrs then init + [last] else init
  }

  /**
   * Attribute columns worth storing: every column of the table, the ones that
   * are not new attributes first and in table order, then the new attributes.
   */
  function AttrColumnsToKeep(columns: seq<string>, execAttrs: seq<string>): (r: seq<string>)
    ensures forall c :: c in r <==> c in columns
    ensures var k := |NonExec(columns, execAttrs)|;
      k <= |r| && r[..k] == NonExec(columns, execAttrs) && forall i :: k <= i < |r| ==> r[i] in execAttrs
  {
    var base := NonExec(columns, execAttrs);
    var r := AddPresent(base, execAttrs, columns);
    forall i | |base| <= i < |r| ensures r[i] in execAttrs {
      AddPresentTail(base, execAttrs, columns, i);
    }
    r
  }

  lemma {:induction false} AddPresentTail(acc: seq<string>, xs: seq<string>, columns: seq<string>, i: nat)
    requires |acc| <= i < |AddPresent(acc, xs, columns)|
    ensures AddPresent(acc, xs, columns)[i] in xs
    decreases |xs|
  {
    if |xs| > 0 {
      var next := if xs[0] in columns && xs[0] !in acc then acc + [xs[0]] else acc;
      if i < |next| {
        assert AddPresent(acc, xs, columns)[i] == AddPresent(next, xs[1..], columns)[..|next|][i];
      } else {
        AddPresentTail(next, xs[1..], columns, i);
      }
    }
  }

  /** The filters dataset `set_model_output` writes, if any: only with new filters and columns to keep. */
  function FiltersToStore(model: string, o: Outputs): (r: Option<(string, Table)>)
    requires o.filters.Some? ==> WellFormed(o.filters.value)
    ensures r.Some? ==> o.filters.Some? && |o.execFltrs| > 0 && r.value.0 == model + "_filters"
    ensures r.Some? ==> r.value.1.rows == o.filters.value.rows
  {
    if o.filters.None? || |o.execFltrs| == 0 then None
    else
      var cols := FilterColumnsToKeep(o.filters.value.columns, o.execFltrs);
      if |cols| == 0 then None else Some((model + "_filters", Select(o.filters.value, cols)))
  }

  /** The attributes dataset `set_model_output` writes, if any: whenever attributes are given. */
  function AttrsToStore(model: string, o: Outputs): (r: Option<(string, Table)>)
    requires o.attrs.Some? ==> WellFormed(o.attrs.value)
    ensures r.Some? <==> o.attrs.Some?
    ensures r.Some? ==> r.value.0 == model + "_attrs" && r.value.1.rows == o.attrs.value.rows
  {
    if o.attrs.None? then None
    else Some((model + "_attrs", Select(o.attrs.value, AttrColumnsToKeep(o.attrs.value.columns, o.execAttrs))))
  }

  function NameOf(s: Option<(string, Table)>): seq<string> {
    if s.Some? then [s.value.0] else []
  }

  /** The datasets after storing `s`, if there is one. */
  function PutOpt(d: Dict<Table>, s: Option<(string, Table)>): (r: Dict<Table>)
    requires Dicts.Valid(d)
    ensures Dicts.Valid(r)
  {
    if s.Some? then Put(d, s.value.0, s.value.1) else d
  }

  /** The history entries for storing `s`, if there is one. */
  function EntriesOf(s: Option<(string, Table)>): seq<Entry> {
    if s.Some? then [StoreEntry(s.value.0, s.value.1, PNone)] else []
  }

  /** `datasets_generated`: the names of the datasets the call wrote, filters first. */
  function Generated(model: string, o: Outputs): seq<string>
    requires o.filters.Some? ==> WellFormed(o.filters.value)
    requires o.attrs.Some? ==> WellFormed(o.attrs.value)
  {
    NameOf(FiltersToStore(model, o)) + NameOf(AttrsToStore(model, o))
  }

  /** `set_dataset` on a table: store it and log one entry. */
  function StoreEntry(name: string, t: Table, metadata: PyVal): Entry {
    DatasetStored(name, t.rows, |t.columns|, if Truthy(metadata) then Some(metadata) else None)
  }

  /**
   * `GabedaContext`: the datasets by name, the models by name and the
   * history, each updated in place by the methods below.
   */
  class GabedaContext {
    var userConfig: Dict<PyVal>
    var datasets: Dict<Table>
    var models: Dict<ModelRecord>
    var history: seq<Entry>

    predicate Valid()
      reads this
    {
      Dicts.Valid(userConfig) && Dicts.Valid(datasets) && Dicts.Valid(models)
    }

    constructor(userConfig: Dict<PyVal>)
      requires Dicts.Valid(userConfig)
      ensures Valid()
      ensures this.userConfig == userConfig && datasets == Empty() && models == Empty() && history == []
    {
      this.userConfig := userConfig;
      datasets := Empty();
      models := Empty();
      history := [];
    }

    /** `set_dataset`: `None` changes nothing; a table is stored under the name with one history entry. */
    method SetDataset(name: string, df: Option<Table>, metadata: PyVal)
      modifies this
      requires Valid()
      ensures Valid()
      ensures df.None? ==> datasets == old(datasets) && history == old(history)
      ensures df.Some? ==> datasets == Put(old(datasets), name, df.value) && history == old(history) + [StoreEntry(name, df.value, metadata)]
      ensures models == old(models) && userConfig == old(userConfig)
    {
      if df.None? {
        return;
      }
      datasets := Put(datasets, name, df.value);
      history := history + [StoreEntry(name, df.value, metadata)];
    }

    /** `get_dataset`. */
    function GetDataset(name: string): (r: Option<Table>)
      reads this
      ensures r == Lookup(datasets, models, name)
    {
      Lookup(datasets, models, name)
    }

    /** `list_datasets`: the names in insertion order. */
    function ListDatasets(): (r: seq<string>)
      reads this
      requires Valid()
      ensures NoDup(r) && forall n :: n in r <==> n in datasets.m
    {
      datasets.keys
    }

    /** `list_models`: the names in insertion order. */
    function ListModels(): (r: seq<string>)
      reads this
      requires Valid()
      ensures NoDup(r) && forall n :: n in r <==> n in models.m
    {
      models.keys
    }

    function GetModelOutput(model: string): (r: Option<ModelRecord>)
      reads this
      ensures r.Some? <==> model in models.m
      ensures r.Some? ==> r.value == models.m[model]
    {
      Get(models, model)
    }

    /** `get_model_filters`: the dataset `<model>_filters`, read as stored (it is never an input alias). */
    function GetModelFilters(model: string): (r: Option<Table>)
      reads this
      ensures r == GetDataset(model + "_filters")
      ensures r == Get(datasets, model + "_filters")
    {
      NotInputAlias(model + "_filters", models);
      Lookup(datasets, models, model + "_filters")
    }

    /** `get_model_attrs`: the dataset `<model>_attrs`, read as stored (it is never an input alias). */
    function GetModelAttrs(model: string): (r: Option<Table>)
      reads this
      ensures r == GetDataset(model + "_attrs")
      ensures r == Get(datasets, model + "_attrs")
    {
      NotInputAlias(model + "_attrs", models);
      Lookup(datasets, models, model + "_attrs")
    }

    /** `get_model_input`: the dataset the model recorded as its input. */
    function GetModelInput(model: string): (r: Option<Table>)
      reads this
      ensures model in models.m && models.m[model].inputDatasetName.Some? && |models.m[model].inputDatasetName.value| > 0 ==>
        r == Get(datasets, models.m[model].inputDatasetName.value)
    {
      if model in models.m && models.m[model].inputDatasetName.Some? && |models.m[model].inputDatasetName.value| > 0 then
        LookupInputLineage(datasets, models, model, models.m[model].inputDatasetName.value);
        Lookup(datasets, models, model + InputSuffix)
      else Lookup(datasets, models, model + InputSuffix)
    }

    /**
     * `set_model_output`: records the run, stores only the new features of
     * its outputs (filters under `<model>_filters`, attributes under
     * `<model>_attrs`) and logs the run.
     */
    method SetModelOutput(model: string, o: Outputs, cfgModel: Option<PyVal>)
      modifies this
      requires Valid()
      requires o.filters.Some? ==> WellFormed(o.filters.value)
      requires o.attrs.Some? ==> WellFormed(o.attrs.value)
      ensures Valid()
      ensures models == Put(old(models), model, ModelRecord(o, cfgModel, Generated(model, o), o.inputDatasetName))
      ensures datasets == PutOpt(PutOpt(old(datasets), FiltersToStore(model, o)), AttrsToStore(model, o))
      ensures history == old(history) + EntriesOf(FiltersToStore(model, o)) + EntriesOf(AttrsToStore(model, o))
        + [ModelExecuted(model, Generated(model, o), o.inputDatasetName)]
      ensures userConfig == old(userConfig)
    {
      models := Put(models, model, ModelRecord(o, cfgModel, [], o.inputDatasetName));
      var fromFilters := StoreFilters(model, o);
      var fromAttrs := StoreAttrs(model, o);
      var generated := fromFilters + fromAttrs;
      assert generated == Generated(model, o);
      PutPut(old(models), model, ModelRecord(o, cfgModel, [], o.inputDatasetName), ModelRecord(o, cfgModel, generated, o.inputDatasetName));
      models := Put(models, model, ModelRecord(o, cfgModel, generated, o.inputDatasetName));
      history := history + [ModelExecuted(model, generated, o.inputDatasetName)];
    }

    /** The filters half of `set_model_output`. */
    method StoreFilters(model: string, o: Outputs) returns (written: seq<string>)
      modifies this
      requires Valid()
      requires o.filters.Some? ==> WellFormed(o.filters.value)
      ensures Valid()
      ensures written == NameOf(FiltersToStore(model, o))
      ensures datasets == PutOpt(old(datasets), FiltersToStore(model, o))
      ensures history == old(history) + EntriesOf(FiltersToStore(model, o))
      ensures models == old(models) && userConfig == old(userConfig)
    {
      written := [];
      if o.filters.Some? && |o.execFltrs| > 0 {
        var df := o.filters.value;
        var cols := KeepFilterColumns(df.columns, o.execFltrs);
        if |cols| > 0 {
          SetDataset(model + "_filters", Some(Select(df, cols)), PNone);
          written := written + [model + "_filters"];
        }
      }
    }

    /** The attributes half of `set_model_output`. */
    method StoreAttrs(model: string, o: Outputs) returns (written: seq<string>)
      modifies this
      requires Valid()
      requires o.attrs.Some? ==> WellFormed(o.attrs.value)
      ensures Valid()
      ensures written == NameOf(AttrsToStore(model, o))
      ensures datasets == PutOpt(old(datasets), AttrsToStore(model, o))
      ensures history == old(history) + EntriesOf(AttrsToStore(model, o))
      ensures models == old(models) && userConfig == old(userConfig)
    {
      written := [];
      if o.attrs.Some? {
        var df := o.attrs.value;
        var cols := KeepAttrColumns(df.columns, o.execAttrs);
        SetDataset(model + "_attrs", Some(Select(df, cols)), PNone);
        written := written + [model + "_attrs"];
      }
    }
  }

  /** The loop building `cols_to_keep` for filters. */
  method KeepFilterColumns(columns: seq<string>, execFltrs: seq<string>) returns (cols: seq<string>)
    ensures cols == FilterColumnsToKeep(columns, execFltrs)
  {
    cols := if "row_id" in columns then ["row_id"] else [];
    var i := 0;
    assert execFltrs[0..] == execFltrs;
    while i < |execFltrs|
      invariant 0 <= i <= |execFltrs|
      invariant FilterColumnsToKeep(columns, execFltrs) == AddPresent(cols, execFltrs[i..], columns)
    {
      var col := execFltrs[i];
      assert execFltrs[i..][0] == col && execFltrs[i..][1..] == execFltrs[i + 1..];
      if col in columns && col !in cols {
        cols := cols + [col];
      }
      i := i + 1;
    }
  }

  /** The two loops building `cols_to_keep` for attributes. */
  method KeepAttrColumns(columns: seq<string>, execAttrs: seq<string>) returns (cols: seq<string>)
    ensures cols == AttrColumnsToKeep(columns, execAttrs)
  {
    cols := [];
    var i := 0;
    while i < |columns|
      invariant 0 <= i <= |columns|
      invariant cols == NonExec(columns[..i], execAttrs)
    {
      assert columns[..i + 1][..i] == columns[..i];
      if columns[i] !in execAttrs {
        cols := cols + [columns[i]];
      }
      i := i + 1;
    }
    assert columns[..|columns|] == columns;
    var j := 0;
    assert execAttrs[0..] == execAttrs;
    while j < |execAttrs|
      invariant 0 <= j <= |execAttrs|
      invariant AttrColumnsToKeep(columns, execAttrs) == AddPresent(cols, execAttrs[j..], columns)
    {
      var col := execAttrs[j];
      assert execAttrs[j..][0] == col && execAttrs[j..][1..] == execAttrs[j + 1..];
      if col in columns && col !in cols {
        cols := cols + [col];
      }
      j := j + 1;
    }
  }

  /** Every name in `datasets_generated` was written, with the table the outputs call for. */
  lemma GeneratedWereStored(model: string, o: Outputs, datasets: Dict<Table>, name: string)
    requires Dicts.Valid(datasets)
    requires o.filters.Some? ==> WellFormed(o.filters.value)
    requires o.attrs.Some? ==> WellFormed(o.attrs.value)
    requires name in Generated(model, o)
    ensures name in PutOpt(PutOpt(datasets, FiltersToStore(model, o)), AttrsToStore(model, o)).m
    ensures name == model + "_filters" || name == model + "_attrs"
  {
  }
}
