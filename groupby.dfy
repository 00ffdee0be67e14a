/**
 * Per-group execution (src/execution/groupby.py). Inside one group a single
 * pass over the execution sequence computes each feature either as a FILTER
 * (a new column, one value per row) or as an ATTRIBUTE (one value for the
 * group), so that later features can read both. Without grouping only
 * filters are computed (enrichment mode).
 */
module GroupBy {
  import opened Wrappers
  import opened Seqs
  import opened Dicts
  import opened Frames
  import opened Analyzer
  import opened Calculator
  import opened PyValues

  /** The parts of the model configuration the engine reads. */
  datatype Plan = Plan(execSeq: seq<string>, meta: map<string, FeatureMeta>, extCols: seq<string>)

  /** `data_in`, `agg_results` and `filters_calculated` while a group is processed. */
  datatype GroupState = GroupState(data: Table, agg: Dict<Value>, filters: seq<string>)

  predicate StateOk(st: GroupState) {
    WellFormed(st.data) && Dicts.Valid(st.agg)
  }

  function Init(group: Table): (st: GroupState)
    requires WellFormed(group)
    ensures StateOk(st)
  {
    GroupState(group, Empty(), [])
  }

  /** Where an argument's value came from. */
  datatype Source = FromAgg | FromExternal | FromData

  /**
   * One argument, by priority: an attribute already computed in this group,
   * then an external column (its first row), then a column of the group.
   */
  function ArgSource(feature: string, arg: string, st: GroupState, extCols: seq<string>): (r: Result<(Arg, Source)>)
    requires StateOk(st)
    ensures r.Ok? && r.value.1 == FromData ==> arg in st.data.columns && r.value.0 == Column(Col(st.data, arg))
    ensures r.Ok? && r.value.1 != FromData ==> r.value.0.Scalar?
    ensures arg in st.agg.m ==> r == Ok((Scalar(st.agg.m[arg]), FromAgg))
    ensures arg !in st.agg.m && arg !in extCols && arg in st.data.columns ==> r.Ok? && r.value.1 == FromData
    ensures arg !in st.agg.m && arg in extCols ==> (r.Ok? <==> arg in st.data.columns && st.data.rows > 0)
    ensures arg !in st.agg.m && arg in extCols && r.Ok? ==> r.value == (Scalar(Col(st.data, arg)[0]), FromExternal)
    ensures arg !in st.agg.m && arg !in extCols && arg !in st.data.columns ==> r == Err(ValueError(ArgNotFound(arg, feature)))
  {
    if arg in st.agg.m then Ok((Scalar(st.agg.m[arg]), FromAgg))
    else if arg in extCols then
      if arg !in st.data.columns then Err(KeyError(arg))
      else if st.data.rows == 0 then Err(IndexError(EmptyIndexMessage))
      else Ok((Scalar(Col(st.data, arg)[0]), FromExternal))
    else if arg in st.data.columns then Ok((Column(Col(st.data, arg)), FromData))
    else Err(ValueError(ArgNotFound(arg, feature)))
  }

  /** The message of the argument loop for a name found nowhere, naming the feature that asked for it. */
  function ArgNotFound(arg: string, feature: string): string {
    "Argument '" + arg + "' not found for feature '" + feature + "'"
  }

  /** The same message in enrichment mode. */
  function EnrichArgNotFound(arg: string, feature: string): string {
    ArgNotFound(arg, feature) + " (enrichment mode)"
  }

  /** The prepared arguments with `in_flg` (some argument is a group column) and `out_flg` (some is an attribute or external). */
  datatype Prepared = Prepared(args: seq<Arg>, inFlg: bool, outFlg: bool)

  /** The argument loop over `args[..n]`; the first unresolvable argument raises. */
  function PrepareArgs(feature: string, args: seq<string>, n: nat, st: GroupState, extCols: seq<string>): (r: Result<Prepared>)
    requires n <= |args| && StateOk(st)
    ensures r.Ok? ==> |r.value.args| == n && RowsAgree(r.value.args, st.data.rows)
  {
    if n == 0 then Ok(Prepared([], false, false))
    else
      var prev := PrepareArgs(feature, args, n - 1, st, extCols);
      if prev.Err? then prev
      else
        var a := ArgSource(feature, args[n - 1], st, extCols);
        if a.Err? then Err(a.error)
        else
          var (v, src) := a.value;
          Ok(Prepared(prev.value.args + [v], prev.value.inFlg || src == FromData, prev.value.outFlg || src != FromData))
  }

  /**
   * The prepared list holds each argument's own value, `in_flg` says some
   * argument is a group column, `out_flg` that some is an attribute or
   * external value; a failure is some argument's failure.
   */
  lemma PrepareArgsMeaning(feature: string, args: seq<string>, n: nat, st: GroupState, extCols: seq<string>)
    requires n <= |args| && StateOk(st)
    ensures var r := PrepareArgs(feature, args, n, st, extCols);
      r.Ok? ==> forall k :: 0 <= k < n ==>
        (ArgSource(feature, args[k], st, extCols).Ok? && r.value.args[k] == ArgSource(feature, args[k], st, extCols).value.0)
    ensures var r := PrepareArgs(feature, args, n, st, extCols);
      r.Ok? ==> (r.value.inFlg <==> exists k :: 0 <= k < n && ArgSource(feature, args[k], st, extCols).value.1 == FromData)
    ensures var r := PrepareArgs(feature, args, n, st, extCols);
      r.Ok? ==> (r.value.outFlg <==> exists k :: 0 <= k < n && ArgSource(feature, args[k], st, extCols).value.1 != FromData)
    ensures PrepareArgs(feature, args, n, st, extCols).Err? ==> exists k :: 0 <= k < n && ArgSource(feature, args[k], st, extCols).Err?
  {
    PrepareArgsValues(feature, args, n, st, extCols);
    PrepareArgsInFlag(feature, args, n, st, extCols);
    PrepareArgsOutFlag(feature, args, n, st, extCols);
    PrepareArgsFails(feature, args, n, st, extCols);
  }

  lemma {:induction false} PrepareArgsValues(feature: string, args: seq<string>, n: nat, st: GroupState, extCols: seq<string>)
    requires n <= |args| && StateOk(st)
    ensures var r := PrepareArgs(feature, args, n, st, extCols);
      r.Ok? ==> forall k :: 0 <= k < n ==>
        (ArgSource(feature, args[k], st, extCols).Ok? && r.value.args[k] == ArgSource(feature, args[k], st, extCols).value.0)
  {
    if n > 0 {
      PrepareArgsValues(feature, args, n - 1, st, extCols);
    }
  }

  lemma {:induction false} PrepareArgsInFlag(feature: string, args: seq<string>, n: nat, st: GroupState, extCols: seq<string>)
    requires n <= |args| && StateOk(st)
    ensures var r := PrepareArgs(feature, args, n, st, extCols);
      r.Ok? ==> (r.value.inFlg <==> exists k :: 0 <= k < n && FromDataAt(feature, args, k, st, extCols))
  {
    if n > 0 {
      PrepareArgsInFlag(feature, args, n - 1, st, extCols);
      var r := PrepareArgs(feature, args, n, st, extCols);
      if r.Ok? {
        var prev := PrepareArgs(feature, args, n - 1, st, extCols).value;
        assert r.value.inFlg == (prev.inFlg || FromDataAt(feature, args, n - 1, st, extCols));
      }
    }
  }

  lemma {:induction false} PrepareArgsOutFlag(feature: string, args: seq<string>, n: nat, st: GroupState, extCols: seq<string>)
    requires n <= |args| && StateOk(st)
    ensures var r := PrepareArgs(feature, args, n, st, extCols);
      r.Ok? ==> (r.value.outFlg <==> exists k :: 0 <= k < n && NotFromDataAt(feature, args, k, st, extCols))
  {
    if n > 0 {
      PrepareArgsOutFlag(feature, args, n - 1, st, extCols);
      var r := PrepareArgs(feature, args, n, st, extCols);
      if r.Ok? {
        var prev := PrepareArgs(feature, args, n - 1, st, extCols).value;
        assert r.value.outFlg == (prev.outFlg || NotFromDataAt(feature, args, n - 1, st, extCols));
      }
    }
  }

  /** Argument `k` resolves to a column of the group. */
  predicate FromDataAt(feature: string, args: seq<string>, k: nat, st: GroupState, extCols: seq<string>)
    requires k < |args| && StateOk(st)
  {
    var a := ArgSource(feature, args[k], st, extCols);
    a.Ok? && a.value.1 == FromData
  }

  /** Argument `k` resolves to an attribute or an external value. */
  predicate NotFromDataAt(feature: string, args: seq<string>, k: nat, st: GroupState, extCols: seq<string>)
    requires k < |args| && StateOk(st)
  {
    var a := ArgSource(feature, args[k], st, extCols);
    a.Ok? && a.value.1 != FromData
  }

  lemma {:induction false} PrepareArgsFails(feature: string, args: seq<string>, n: nat, st: GroupState, extCols: seq<string>)
    requires n <= |args| && StateOk(st)
    ensures PrepareArgs(feature, args, n, st, extCols).Err? ==> exists k :: 0 <= k < n && ArgSource(feature, args[k], st, extCols).Err?
  {
    if n > 0 {
      PrepareArgsFails(feature, args, n - 1, st, extCols);
    }
  }

  datatype Kind = Filter | Attribute

  /** The four cases collapse to one test: a filter reads a group column and aggregates nothing. */
  function Decide(inFlg: bool, groupbyFlg: bool): (k: Kind)
    ensures k == Filter <==> inFlg && !groupbyFlg
  {
    if inFlg && !groupbyFlg then Filter else Attribute
  }

  /** One feature of the single loop. */
  function Step(st: GroupState, feature: string, plan: Plan, ev: Eval): (r: Result<GroupState>)
    requires StateOk(st)
    ensures r.Ok? ==> StateOk(r.value)
  {
    if feature in st.data.columns then Ok(st)
    else if feature !in plan.meta then Err(KeyError(feature))
    else
      var m := plan.meta[feature];
      var p := PrepareArgs(feature, m.args, |m.args|, st, plan.extCols);
      if p.Err? then Err(p.error)
      else if Decide(p.value.inFlg, m.groupbyFlg) == Filter then
        var col := CalculateFilter(m.func, p.value.args, st.data.rows, ev);
        if col.Err? then Err(col.error)
        else Ok(GroupState(SetColumn(st.data, feature, col.value), st.agg, st.filters + [feature]))
      else
        var v := CalculateAttribute(m.func, p.value.args, ev);
        if v.Err? then Err(v.error)
        else Ok(GroupState(st.data, Put(st.agg, feature, v.value), st.filters))
  }

  /** The loop over the features `fs`, stopping at the first that raises. */
  function RunFrom(st: GroupState, fs: seq<string>, plan: Plan, ev: Eval): (r: Result<GroupState>)
    requires StateOk(st)
    ensures r.Ok? ==> StateOk(r.value)
    decreases |fs|
  {
    if |fs| == 0 then Ok(st)
    else
      var next := Step(st, fs[0], plan, ev);
      if next.Err? then next else RunFrom(next.value, fs[1..], plan, ev)
  }

  /**
   * What a processed group keeps of the group it started from: the same rows,
   * its columns unchanged and first, then one new column per filter in the
   * order computed; filters never aggregate; attributes are planned features.
   */
  predicate Keeps(group: Table, st: GroupState, plan: Plan)
    requires WellFormed(group)
  {
    && StateOk(st)
    && st.data.rows == group.rows
    && st.data.columns == group.columns + st.filters
    && (forall c :: c in group.columns ==> Col(st.data, c) == Col(group, c))
    && (forall f :: f in st.filters ==> f in plan.meta && !plan.meta[f].groupbyFlg)
    && (forall k :: k in st.agg.m ==> k in plan.meta)
  }

  lemma {:induction false} StepKeeps(group: Table, st: GroupState, feature: string, plan: Plan, ev: Eval)
    requires WellFormed(group) && Keeps(group, st, plan)
    requires Step(st, feature, plan, ev).Ok?
    ensures Keeps(group, Step(st, feature, plan, ev).value, plan)
  {
    if feature !in st.data.columns {
      var m := plan.meta[feature];
      var p := PrepareArgs(feature, m.args, |m.args|, st, plan.extCols);
      if Decide(p.value.inFlg, m.groupbyFlg) == Filter {
        var col := CalculateFilter(m.func, p.value.args, st.data.rows, ev);
        AddFilterKeeps(group, st, feature, col.value, plan);
      }
    }
  }

  /** Adding a planned, non-aggregating feature as a new column keeps the group's columns and the plan's bounds. */
  lemma AddFilterKeeps(group: Table, st: GroupState, feature: string, col: seq<Value>, plan: Plan)
    requires WellFormed(group) && Keeps(group, st, plan)
    requires feature !in st.data.columns && feature in plan.meta && !plan.meta[feature].groupbyFlg
    requires |col| == st.data.rows
    ensures Keeps(group, GroupState(SetColumn(st.data, feature, col), st.agg, st.filters + [feature]), plan)
  {
    var r := GroupState(SetColumn(st.data, feature, col), st.agg, st.filters + [feature]);
    assert r.data.columns == group.columns + r.filters;
    forall c | c in group.columns ensures Col(r.data, c) == Col(group, c) {
      assert c in st.data.columns && c != feature;
    }
  }

  lemma {:induction false} RunKeeps(group: Table, st: GroupState, fs: seq<string>, plan: Plan, ev: Eval)
    requires WellFormed(group) && Keeps(group, st, plan)
    requires RunFrom(st, fs, plan, ev).Ok?
    ensures Keeps(group, RunFrom(st, fs, plan, ev).value, plan)
    decreases |fs|
  {
    if |fs| > 0 {
      StepKeeps(group, st, fs[0], plan, ev);
      RunKeeps(group, Step(st, fs[0], plan, ev).value, fs[1..], plan, ev);
    }
  }

  /** A feature the group already holds as a column is skipped, never recomputed. */
  lemma ExistingColumnSkipped(st: GroupState, feature: string, plan: Plan, ev: Eval)
    requires StateOk(st) && feature in st.data.columns
    ensures Step(st, feature, plan, ev) == Ok(st)
  {
  }

  /** A filter may read attributes computed earlier in the same group: the attribute's value is passed, not a column. */
  lemma FilterReadsAttribute(st: GroupState, feature: string, plan: Plan, ev: Eval, k: nat)
    requires StateOk(st) && feature !in st.data.columns && feature in plan.meta
    requires k < |plan.meta[feature].args| && plan.meta[feature].args[k] in st.agg.m
    requires PrepareArgs(feature, plan.meta[feature].args, |plan.meta[feature].args|, st, plan.extCols).Ok?
    ensures PrepareArgs(feature, plan.meta[feature].args, |plan.meta[feature].args|, st, plan.extCols).value.args[k]
            == Scalar(st.agg.m[plan.meta[feature].args[k]])
    ensures PrepareArgs(feature, plan.meta[feature].args, |plan.meta[feature].args|, st, plan.extCols).value.outFlg
  {
    var args := plan.meta[feature].args;
    PrepareArgsMeaning(feature, args, |args|, st, plan.extCols);
    assert ArgSource(feature, args[k], st, plan.extCols).value.1 == FromAgg;
  }

  /** The body of the single loop for one feature: skip, prepare the arguments, then filter or attribute. */
  method ProcessFeature(st: GroupState, feature: string, plan: Plan, ev: Eval) returns (r: Result<GroupState>)
    requires StateOk(st)
    ensures r == Step(st, feature, plan, ev)
  {
    if feature in st.data.columns {
      return Ok(st);
    }
    if feature !in plan.meta {
      return Err(KeyError(feature));
    }
    var m := plan.meta[feature];
    var args: seq<Arg> := [];
    var inFlg, outFlg := false, false;
    var j := 0;
    while j < |m.args|
      invariant 0 <= j <= |m.args|
      invariant PrepareArgs(feature, m.args, j, st, plan.extCols) == Ok(Prepared(args, inFlg, outFlg))
    {
      var a := ArgSource(feature, m.args[j], st, plan.extCols);
      if a.Err? {
        PrepareErrSticks(feature, m.args, j + 1, st, plan.extCols);
        return Err(a.error);
      }
      args := args + [a.value.0];
      inFlg := inFlg || a.value.1 == FromData;
      outFlg := outFlg || a.value.1 != FromData;
      j := j + 1;
    }
    if inFlg && !m.groupbyFlg {
      var col := CalculateFilter(m.func, args, st.data.rows, ev);
      if col.Err? {
        return Err(col.error);
      }
      r := Ok(GroupState(SetColumn(st.data, feature, col.value), st.agg, st.filters + [feature]));
    } else {
      var v := CalculateAttribute(m.func, args, ev);
      if v.Err? {
        return Err(v.error);
      }
      r := Ok(GroupState(st.data, Put(st.agg, feature, v.value), st.filters));
    }
  }

  /** `process_group`: the single loop over the execution sequence for one group. */
  method ProcessGroup(group: Table, plan: Plan, ev: Eval) returns (r: Result<GroupState>)
    requires WellFormed(group)
    ensures r == RunFrom(Init(group), plan.execSeq, plan, ev)
    ensures r.Ok? ==> Keeps(group, r.value, plan)
  {
    var st := Init(group);
    var i := 0;
    while i < |plan.execSeq|
      invariant 0 <= i <= |plan.execSeq|
      invariant StateOk(st)
      invariant RunFrom(Init(group), plan.execSeq, plan, ev) == RunFrom(st, plan.execSeq[i..], plan, ev)
    {
      assert plan.execSeq[i..][0] == plan.execSeq[i] && plan.execSeq[i..][1..] == plan.execSeq[i + 1..];
      var next := ProcessFeature(st, plan.execSeq[i], plan, ev);
      if next.Err? {
        return next;
      }
      st := next.value;
      i := i + 1;
    }
    r := Ok(st);
    assert Keeps(group, Init(group), plan);
    RunKeeps(group, Init(group), plan.execSeq, plan, ev);
  }

  /** Once an argument fails, the whole argument list fails with it. */
  lemma {:induction false} PrepareErrSticks(feature: string, args: seq<string>, n: nat, st: GroupState, extCols: seq<string>)
    requires n <= |args| && StateOk(st)
    requires PrepareArgs(feature, args, n, st, extCols).Err?
    ensures PrepareArgs(feature, args, |args|, st, extCols) == PrepareArgs(feature, args, n, st, extCols)
    decreases |args| - n
  {
    if n < |args| { PrepareErrSticks(feature, args, n + 1, st, extCols); }
  }

  // ---------------------------------------------------------------------
  // Enrichment mode (no group-by columns)
  // ---------------------------------------------------------------------

  /** All arguments must be columns of the data; the first that is not raises `ValueError`. */
  function ColumnArgs(feature: string, args: seq<string>, n: nat, t: Table): (r: Result<seq<Arg>>)
    requires n <= |args| && WellFormed(t)
    ensures r.Ok? <==> forall k :: 0 <= k < n ==> args[k] in t.columns
    ensures r.Ok? ==> |r.value| == n && RowsAgree(r.value, t.rows)
    ensures r.Ok? ==> forall k :: 0 <= k < n ==> r.value[k] == Column(Col(t, args[k]))
    ensures r.Err? ==> exists k :: (&& 0 <= k < n && args[k] !in t.columns && (forall j :: 0 <= j < k ==> args[j] in t.columns)
                                     && r == Err(ValueError(EnrichArgNotFound(args[k], feature))))
  {
    if n == 0 then Ok([])
    else
      var prev := ColumnArgs(feature, args, n - 1, t);
      if prev.Err? then prev
      else if args[n - 1] !in t.columns then Err(ValueError(EnrichArgNotFound(args[n - 1], feature)))
      else Ok(prev.value + [Column(Col(t, args[n - 1]))])
  }

  /** One feature in enrichment mode: aggregations are skipped, everything else is a filter. */
  function EnrichStep(st: GroupState, feature: string, plan: Plan, ev: Eval): (r: Result<GroupState>)
    requires StateOk(st)
    ensures r.Ok? ==> StateOk(r.value) && r.value.agg == st.agg
  {
    if feature in st.data.columns then Ok(st)
    else if feature !in plan.meta then Err(KeyError(feature))
    else
      var m := plan.meta[feature];
      if m.groupbyFlg then Ok(st)
      else
        var a := ColumnArgs(feature, m.args, |m.args|, st.data);
        if a.Err? then Err(a.error)
        else
          var col := CalculateFilter(m.func, a.value, st.data.rows, ev);
          if col.Err? then Err(col.error)
          else Ok(GroupState(SetColumn(st.data, feature, col.value), st.agg, st.filters + [feature]))
  }

  function EnrichFrom(st: GroupState, fs: seq<string>, plan: Plan, ev: Eval): (r: Result<GroupState>)
    requires StateOk(st)
    ensures r.Ok? ==> StateOk(r.value) && r.value.agg == st.agg
    decreases |fs|
  {
    if |fs| == 0 then Ok(st)
    else
      var next := EnrichStep(st, fs[0], plan, ev);
      if next.Err? then next else EnrichFrom(next.value, fs[1..], plan, ev)
  }

  lemma EnrichStepKeeps(group: Table, st: GroupState, feature: string, plan: Plan, ev: Eval)
    requires WellFormed(group) && Keeps(group, st, plan)
    requires EnrichStep(st, feature, plan, ev).Ok?
    ensures Keeps(group, EnrichStep(st, feature, plan, ev).value, plan)
  {
    if feature !in st.data.columns && !plan.meta[feature].groupbyFlg {
      var m := plan.meta[feature];
      var a := ColumnArgs(feature, m.args, |m.args|, st.data);
      var col := CalculateFilter(m.func, a.value, st.data.rows, ev);
      AddFilterKeeps(group, st, feature, col.value, plan);
    }
  }

  lemma {:induction false} EnrichKeeps(group: Table, st: GroupState, fs: seq<string>, plan: Plan, ev: Eval)
    requires WellFormed(group) && Keeps(group, st, plan)
    requires EnrichFrom(st, fs, plan, ev).Ok?
    ensures Keeps(group, EnrichFrom(st, fs, plan, ev).value, plan)
    decreases |fs|
  {
    if |fs| > 0 {
      EnrichStepKeeps(group, st, fs[0], plan, ev);
      EnrichKeeps(group, EnrichStep(st, fs[0], plan, ev).value, fs[1..], plan, ev);
    }
  }

  /** The result of processing: filters table, attributes table and `exec_fltrs`. */
  datatype Outcome = Outcome(filters: Table, attrs: Table, execFltrs: set<string>)

  /**
   * `_process_no_grouping`: the input plus one column per computed filter;
   * no attributes, and no aggregating feature is computed.
   */
  method ProcessNoGrouping(data: Table, plan: Plan, ev: Eval) returns (r: Result<(Outcome, seq<string>)>)
    requires WellFormed(data)
    ensures var spec := EnrichFrom(Init(data), plan.execSeq, plan, ev);
      (r.Ok? <==> spec.Ok?) && (r.Err? ==> r.error == spec.error)
    ensures r.Ok? ==> var st := EnrichFrom(Init(data), plan.execSeq, plan, ev).value;
      r.value.0 == Outcome(st.data, EmptyTable(), NameSet(st.filters)) && r.value.1 == st.filters
    ensures r.Ok? ==> Keeps(data, EnrichFrom(Init(data), plan.execSeq, plan, ev).value, plan)
  {
    var st := Init(data);
    var i := 0;
    while i < |plan.execSeq|
      invariant 0 <= i <= |plan.execSeq|
      invariant StateOk(st)
      invariant EnrichFrom(Init(data), plan.execSeq, plan, ev) == EnrichFrom(st, plan.execSeq[i..], plan, ev)
    {
      var feature := plan.execSeq[i];
      assert plan.execSeq[i..][0] == feature && plan.execSeq[i..][1..] == plan.execSeq[i + 1..];
      var next := EnrichStep(st, feature, plan, ev);
      if next.Err? {
        r := Err(next.error);
        return;
      }
      st := next.value;
      i := i + 1;
    }
    assert Keeps(data, Init(data), plan);
    EnrichKeeps(data, Init(data), plan.execSeq, plan, ev);
    r := Ok((Outcome(st.data, EmptyTable(), NameSet(st.filters)), st.filters));
  }

  /** A group's key as pandas passes it: a scalar, or a tuple when grouping by several columns. */
  datatype GroupKey = KeyScalar(v: Value) | KeyTuple(vs: seq<Value>)

  /** One group: its key and its rows, without the group-by columns. */
  datatype Group = Group(key: GroupKey, rows: Table)

  /** A processed group: its key and the final state of `process_group`. */
  datatype Processed = Processed(key: GroupKey, st: GroupState)

  /** `group_by` is `None`, `[]` or `''`: enrichment mode. */
  predicate NoGrouping(gb: PyVal) {
    gb == PNone || gb == PList([]) || gb == PStr("")
  }

  /** The column names `group_by` lists: one for a string, each item for a list of strings. */
  function GroupColumns(gb: PyVal): (r: Option<seq<string>>)
    ensures gb.PStr? ==> r == Some([gb.s])
    ensures r.Some? && gb.PList? ==> |r.value| == |gb.items| && forall i :: 0 <= i < |gb.items| ==> gb.items[i] == PStr(r.value[i])
    ensures r.Some? ==> gb.PStr? || gb.PList?
  {
    match gb
    case PStr(c) => Some([c])
    case PList(items) =>
      if forall i :: 0 <= i < |items| ==> items[i].PStr? then Some(seq(|items|, i requires 0 <= i < |items| => items[i].s)) else None
    case _ => None
  }

  /** What pandas guarantees of a key: a scalar for one string column, a scalar or a tuple of matching length for a list. */
  predicate KeyFits(gb: PyVal, key: GroupKey) {
    GroupColumns(gb).Some? && |GroupColumns(gb).value| > 0 &&
    match key
    case KeyScalar(_) => true
    case KeyTuple(vs) => gb.PList? && |vs| == |gb.items|
  }

  /** The value group column `i` receives: the `i`-th tuple item, or the scalar itself. */
  function KeyValueAt(key: GroupKey, i: nat): Value
    requires key.KeyTuple? ==> i < |key.vs|
  {
    if key.KeyTuple? then key.vs[i] else key.v
  }

  /** Put the group columns `cols[n..]` back into a group's rows, each filled with its key value. */
  function AttachFrom(t: Table, cols: seq<string>, key: GroupKey, n: nat): (r: Table)
    requires WellFormed(t) && n <= |cols|
    requires key.KeyTuple? ==> |key.vs| == |cols|
    ensures WellFormed(r) && r.rows == t.rows
    ensures forall c :: c in t.columns ==> c in r.columns
    ensures forall c :: c in t.columns && c !in cols[n..] ==> Col(r, c) == Col(t, c)
    ensures forall i :: n <= i < |cols| && cols[i] !in cols[i + 1..] ==> cols[i] in r.columns && Col(r, cols[i]) == Fill(t.rows, KeyValueAt(key, i))
    decreases |cols| - n
  {
    if n == |cols| then t
    else
      var t1 := SetColumn(t, cols[n], Fill(t.rows, KeyValueAt(key, n)));
      var r := AttachFrom(t1, cols, key, n + 1);
      assert forall c :: c !in cols[n..] ==> c != cols[n] && c !in cols[n + 1..];
      assert cols[n] !in cols[n + 1..] ==> cols[n] in r.columns && Col(r, cols[n]) == Fill(t.rows, KeyValueAt(key, n));
      r
  }

  /** `process_all_groups`' treatment of one processed group's rows: group columns back in, all-missing columns dropped. */
  function GroupPart(p: Processed, cols: seq<string>): (r: Table)
    requires WellFormed(p.st.data)
    requires p.key.KeyTuple? ==> |p.key.vs| == |cols|
    ensures WellFormed(r) && r.rows == p.st.data.rows
  {
    DropAllMissingColumns(AttachFrom(p.st.data, cols, p.key, 0))
  }

  /** The attribute row of a group: its key under the group column name(s), overridden by its attributes. */
  function KeyRecord(gb: PyVal, key: GroupKey): (r: Dict<Value>)
    requires KeyFits(gb, key)
    ensures Dicts.Valid(r)
    ensures gb.PList? && key.KeyTuple? ==> forall i :: 0 <= i < |key.vs| ==> gb.items[i].s in r.m
    ensures !(gb.PList? && key.KeyTuple?) ==> r.m == map[GroupColumns(gb).value[0] := key.v]
  {
    var cols := GroupColumns(gb).value;
    if gb.PList? && key.KeyTuple? then
      PutAll(Empty(), cols, map i | 0 <= i < |cols| :: cols[i] := key.vs[LastIndex(cols, cols[i])])
    else Put(Empty(), cols[0], key.v)
  }

  /** Position of the last occurrence of `x`: a dict display keeps the value written last. */
  function LastIndex(s: seq<string>, x: string): (i: nat)
    requires x in s
    ensures i < |s| && s[i] == x && x !in s[i + 1..]
  {
    if s[|s| - 1] == x then |s| - 1 else LastIndex(s[..|s| - 1], x)
  }

  /** `groupby(...).apply(process_group)`: every group processed in order; the first group that raises ends it. */
  function RunGroups(groups: seq<Group>, plan: Plan, ev: Eval): (r: Result<seq<Processed>>)
    requires forall k :: 0 <= k < |groups| ==> WellFormed(groups[k].rows)
    ensures r.Ok? ==> |r.value| == |groups|
    ensures r.Ok? ==> forall k :: 0 <= k < |groups| ==>
      && r.value[k].key == groups[k].key
      && RunFrom(Init(groups[k].rows), plan.execSeq, plan, ev) == Ok(r.value[k].st)
      && Keeps(groups[k].rows, r.value[k].st, plan)
  {
    if |groups| == 0 then Ok([])
    else
      var prev := RunGroups(groups[..|groups| - 1], plan, ev);
      if prev.Err? then prev
      else
        var g := groups[|groups| - 1];
        var x := RunFrom(Init(g.rows), plan.execSeq, plan, ev);
        if x.Err? then Err(x.error)
        else
          assert Keeps(g.rows, Init(g.rows), plan);
          RunKeeps(g.rows, Init(g.rows), plan.execSeq, plan, ev);
          Ok(prev.value + [Processed(g.key, x.value)])
  }

  /** One group more: its run's failure ends the whole, its result is appended otherwise. */
  lemma RunGroupsNext(groups: seq<Group>, i: nat, plan: Plan, ev: Eval, ps: seq<Processed>)
    requires forall k :: 0 <= k < |groups| ==> WellFormed(groups[k].rows)
    requires i < |groups| && RunGroups(groups[..i], plan, ev) == Ok(ps)
    ensures var x := RunFrom(Init(groups[i].rows), plan.execSeq, plan, ev);
      RunGroups(groups[..i + 1], plan, ev) == if x.Err? then Err(x.error) else Ok(ps + [Processed(groups[i].key, x.value)])
  {
    assert groups[..i + 1][..i] == groups[..i];
  }

  /** A failure in the first `n` groups is the failure of the whole. */
  lemma {:induction false} RunGroupsPrefixErr(groups: seq<Group>, n: nat, plan: Plan, ev: Eval)
    requires forall k :: 0 <= k < |groups| ==> WellFormed(groups[k].rows)
    requires n <= |groups| && RunGroups(groups[..n], plan, ev).Err?
    ensures RunGroups(groups, plan, ev) == RunGroups(groups[..n], plan, ev)
  {
    if n < |groups| {
      var init := groups[..|groups| - 1];
      assert init[..n] == groups[..n];
      RunGroupsPrefixErr(init, n, plan, ev);
    } else {
      assert groups[..n] == groups;
    }
  }

  /** Processing all groups fails exactly when processing some group fails. */
  lemma {:induction false} RunGroupsFails(groups: seq<Group>, plan: Plan, ev: Eval)
    requires forall k :: 0 <= k < |groups| ==> WellFormed(groups[k].rows)
    ensures RunGroups(groups, plan, ev).Err? <==> exists k :: 0 <= k < |groups| && RunFrom(Init(groups[k].rows), plan.execSeq, plan, ev).Err?
  {
    if |groups| > 0 {
      var init := groups[..|groups| - 1];
      RunGroupsFails(init, plan, ev);
      if exists k :: 0 <= k < |groups| && RunFrom(Init(groups[k].rows), plan.execSeq, plan, ev).Err? {
        var k :| 0 <= k < |groups| && RunFrom(Init(groups[k].rows), plan.execSeq, plan, ev).Err?;
        if k < |groups| - 1 { assert init[k] == groups[k]; }
      }
    }
  }

  /** The names of a list as a set. */
  function NameSet(xs: seq<string>): (r: set<string>)
    ensures forall x :: x in r <==> x in xs
  {
    set x | x in xs
  }

  /** `all_filters`: the union of the filters every group computed. */
  function FilterUnion(ps: seq<Processed>): set<string> {
    if |ps| == 0 then {} else FilterUnion(ps[..|ps| - 1]) + NameSet(ps[|ps| - 1].st.filters)
  }

  lemma {:induction false} FilterUnionMember(ps: seq<Processed>, f: string)
    ensures f in FilterUnion(ps) <==> exists k :: 0 <= k < |ps| && f in ps[k].st.filters
  {
    if |ps| > 0 {
      FilterUnionMember(ps[..|ps| - 1], f);
      if exists k :: 0 <= k < |ps| && f in ps[k].st.filters {
        var k :| 0 <= k < |ps| && f in ps[k].st.filters;
        if k < |ps| - 1 { assert ps[..|ps| - 1][k] == ps[k]; }
      }
    }
  }

  /** The processed groups agree with the group-by columns and are well formed. */
  predicate Assemblable(gb: PyVal, ps: seq<Processed>) {
    forall k :: 0 <= k < |ps| ==> WellFormed(ps[k].st.data) && KeyFits(gb, ps[k].key)
  }

  /** `data_in_list`: the rows of every non-empty group, group columns back in, all-missing columns dropped. */
  function Parts(gb: PyVal, ps: seq<Processed>): (r: seq<Table>)
    requires Assemblable(gb, ps)
    ensures forall k :: 0 <= k < |r| ==> WellFormed(r[k])
  {
    if |ps| == 0 then []
    else
      var last := ps[|ps| - 1];
      Parts(gb, ps[..|ps| - 1]) + if IsEmpty(last.st.data) then [] else [GroupPart(last, GroupColumns(gb).value)]
  }

  /** A group's attribute row: `row_dict` updated with `agg_results`. */
  function RecordOf(gb: PyVal, p: Processed): Dict<Value>
    requires KeyFits(gb, p.key) && Dicts.Valid(p.st.agg)
  {
    Update(KeyRecord(gb, p.key), p.st.agg)
  }

  /** `attrs_list`: one record per group, its key then its attributes. */
  function Records(gb: PyVal, ps: seq<Processed>): (r: seq<Dict<Value>>)
    requires Assemblable(gb, ps) && forall k :: 0 <= k < |ps| ==> Dicts.Valid(ps[k].st.agg)
    ensures |r| == |ps|
    ensures forall k :: 0 <= k < |ps| ==> r[k] == RecordOf(gb, ps[k])
  {
    seq(|ps|, k requires 0 <= k < |ps| => RecordOf(gb, ps[k]))
  }

  /** The filters table: the parts concatenated, or an empty table when that is empty. */
  function FiltersOf(parts: seq<Table>): (r: Table)
    requires forall k :: 0 <= k < |parts| ==> WellFormed(parts[k])
    ensures WellFormed(r)
  {
    var combined := if |parts| == 0 then EmptyTable() else ConcatAll(parts);
    if IsEmpty(combined) then EmptyTable() else combined
  }

  /** The attributes table: one row per record, or an empty table without records. */
  function AttrsOf(recs: seq<Dict<Value>>): (r: Table)
    ensures WellFormed(r)
  {
    if |recs| == 0 then EmptyTable() else FromRecords(recs)
  }

  /** The outcome `process_all_groups` assembles from the processed groups. */
  function Assemble(gb: PyVal, ps: seq<Processed>): (r: Outcome)
    requires Assemblable(gb, ps) && forall k :: 0 <= k < |ps| ==> Dicts.Valid(ps[k].st.agg)
  {
    Outcome(FiltersOf(Parts(gb, ps)), AttrsOf(Records(gb, ps)), FilterUnion(ps))
  }

  /** The first of `xs` missing from `ys`. */
  function FirstAbsent(xs: seq<string>, ys: seq<string>): (r: Option<string>)
    ensures r.None? <==> forall i :: 0 <= i < |xs| ==> xs[i] in ys
    ensures r.Some? ==> r.value in xs && r.value !in ys
  {
    if |xs| == 0 then None
    else if xs[0] !in ys then Some(xs[0])
    else FirstAbsent(xs[1..], ys)
  }

  /** What the grouped path of `process_all_groups` returns. */
  function AllGroupsSpec(gb: PyVal, data: Table, groups: seq<Group>, plan: Plan, ev: Eval): (r: Result<Outcome>)
    requires GroupColumns(gb).Some?
    requires forall k :: 0 <= k < |groups| ==> WellFormed(groups[k].rows) && KeyFits(gb, groups[k].key)
  {
    var missing := FirstAbsent(GroupColumns(gb).value, data.columns);
    if missing.Some? then Err(KeyError(missing.value))
    else
      var rg := RunGroups(groups, plan, ev);
      if rg.Err? then Err(rg.error) else Ok(Assemble(gb, rg.value))
  }

  lemma LastIndexOfLast(s: seq<string>, i: nat)
    requires i < |s| && s[i] !in s[i + 1..]
    ensures LastIndex(s, s[i]) == i
  {
  }

  /** A tuple key gives each group column its own item (the last one, should a name repeat). */
  lemma KeyRecordTuple(gb: PyVal, key: GroupKey, i: nat)
    requires KeyFits(gb, key) && gb.PList? && key.KeyTuple?
    requires var cols := GroupColumns(gb).value; i < |cols| && cols[i] !in cols[i + 1..]
    ensures var cols := GroupColumns(gb).value; cols[i] in KeyRecord(gb, key).m && KeyRecord(gb, key).m[cols[i]] == key.vs[i]
  {
    LastIndexOfLast(GroupColumns(gb).value, i);
  }

  /** The attributes table has one row per group, in group order, holding that group's attributes. */
  lemma AttrsOnePerGroup(gb: PyVal, ps: seq<Processed>, k: nat, c: string)
    requires Assemblable(gb, ps) && forall k :: 0 <= k < |ps| ==> Dicts.Valid(ps[k].st.agg)
    requires k < |ps| && c in ps[k].st.agg.m
    ensures var a := AttrsOf(Records(gb, ps));
      a.rows == |ps| && c in a.columns && Cell(a, c, k) == ps[k].st.agg.m[c]
  {
    var recs := Records(gb, ps);
    var rec := recs[k];
    assert rec == Update(KeyRecord(gb, ps[k].key), ps[k].st.agg);
    assert c in rec.m && rec.m[c] == ps[k].st.agg.m[c];
    KeyInAllKeys(recs, k, c);
  }

  /** A group column no attribute overrides holds the group's key on the group's row. */
  lemma AttrsCarryKey(gb: PyVal, ps: seq<Processed>, k: nat, i: nat)
    requires Assemblable(gb, ps) && forall k :: 0 <= k < |ps| ==> Dicts.Valid(ps[k].st.agg)
    requires k < |ps| && GroupColumns(gb).Some?
    requires var cols := GroupColumns(gb).value;
      && i < |cols| && cols[i] !in cols[i + 1..] && cols[i] !in ps[k].st.agg.m
      && (ps[k].key.KeyScalar? ==> i == 0)
    ensures var a := AttrsOf(Records(gb, ps)); var cols := GroupColumns(gb).value;
      cols[i] in a.columns && k < a.rows && Cell(a, cols[i], k) == KeyValueAt(ps[k].key, i)
  {
    var recs := Records(gb, ps);
    var cols := GroupColumns(gb).value;
    KeyInRecord(gb, ps[k], i);
    assert recs[k] == RecordOf(gb, ps[k]);
    KeyInAllKeys(recs, k, cols[i]);
  }

  /** The record of one group holds its key value under each group column no attribute overrides. */
  lemma KeyInRecord(gb: PyVal, p: Processed, i: nat)
    requires KeyFits(gb, p.key) && Dicts.Valid(p.st.agg) && GroupColumns(gb).Some?
    requires var cols := GroupColumns(gb).value;
      && i < |cols| && cols[i] !in cols[i + 1..] && cols[i] !in p.st.agg.m
      && (p.key.KeyScalar? ==> i == 0)
    ensures var cols := GroupColumns(gb).value;
      cols[i] in RecordOf(gb, p).m && RecordOf(gb, p).m[cols[i]] == KeyValueAt(p.key, i)
  {
    if p.key.KeyTuple? {
      KeyRecordTuple(gb, p.key, i);
    }
  }

  /** Rows of the groups whose processed rows are not empty. */
  function NonEmptyRows(ps: seq<Processed>): nat {
    if |ps| == 0 then 0
    else NonEmptyRows(ps[..|ps| - 1]) + if IsEmpty(ps[|ps| - 1].st.data) then 0 else ps[|ps| - 1].st.data.rows
  }

  lemma {:induction false} PartsRows(gb: PyVal, ps: seq<Processed>)
    requires Assemblable(gb, ps)
    ensures TotalRows(Parts(gb, ps)) == NonEmptyRows(ps)
  {
    if |ps| > 0 {
      var init := ps[..|ps| - 1];
      assert Assemblable(gb, init);
      PartsRows(gb, init);
      PartsSnocRows(gb, ps);
    }
  }

  /** The last group adds its rows to the filters table when it has any. */
  lemma PartsSnocRows(gb: PyVal, ps: seq<Processed>)
    requires Assemblable(gb, ps) && |ps| > 0
    ensures var last := ps[|ps| - 1];
      TotalRows(Parts(gb, ps)) == TotalRows(Parts(gb, ps[..|ps| - 1])) + if IsEmpty(last.st.data) then 0 else last.st.data.rows
  {
    var n := |ps| - 1;
    PartsNext(gb, ps, n);
    assert ps[..n + 1] == ps;
    var a := Parts(gb, ps[..n]);
    if IsEmpty(ps[n].st.data) {
      assert a + [] == a;
    } else {
      TotalRowsSnoc(a, GroupPart(ps[n], GroupColumns(gb).value));
    }
  }

  /** Every row of every non-empty group reaches the filters table, unless that table has no columns at all. */
  lemma FiltersKeepEveryRow(gb: PyVal, ps: seq<Processed>)
    requires Assemblable(gb, ps) && forall k :: 0 <= k < |ps| ==> Dicts.Valid(ps[k].st.agg)
    ensures var f := Assemble(gb, ps).filters; !IsEmpty(f) ==> f.rows == NonEmptyRows(ps)
  {
    PartsRows(gb, ps);
  }

  /**
   * A group's part of the filters table carries each group column with the
   * group's key on every row, unless that key value is missing.
   */
  lemma GroupPartCarriesKey(p: Processed, cols: seq<string>, i: nat)
    requires WellFormed(p.st.data) && (p.key.KeyTuple? ==> |p.key.vs| == |cols|)
    requires i < |cols| && cols[i] !in cols[i + 1..]
    requires p.st.data.rows > 0 && KeyValueAt(p.key, i) != Null
    ensures var t := GroupPart(p, cols);
      exists j :: 0 <= j < |t.columns| && t.columns[j] == cols[i] && t.cells[j] == Fill(p.st.data.rows, KeyValueAt(p.key, i))
  {
    var t := AttachFrom(p.st.data, cols, p.key, 0);
    assert cols[i] in t.columns && Col(t, cols[i]) == Fill(t.rows, KeyValueAt(p.key, i));
    var k := IndexOf(t.columns, cols[i]);
    assert t.cells[k][0] == KeyValueAt(p.key, i);
    DropKeepsPresent(t, k);
    var r := DropAllMissingColumns(t);
    assert r == GroupPart(p, cols);
    var j :| 0 <= j < |r.columns| && r.columns[j] == t.columns[k] && r.cells[j] == t.cells[k];
    assert r.columns[j] == cols[i] && r.cells[j] == Fill(p.st.data.rows, KeyValueAt(p.key, i));
  }

  /** The filters every processed group computed are planned, non-aggregating features. */
  lemma FilterUnionPlanned(groups: seq<Group>, ps: seq<Processed>, plan: Plan, ev: Eval)
    requires forall k :: 0 <= k < |groups| ==> WellFormed(groups[k].rows)
    requires RunGroups(groups, plan, ev) == Ok(ps)
    ensures forall f :: f in FilterUnion(ps) ==> f in plan.meta && !plan.meta[f].groupbyFlg
  {
    assert forall k :: 0 <= k < |ps| ==> Keeps(groups[k].rows, ps[k].st, plan);
    PlannedFilters(ps, plan);
  }

  predicate FiltersPlanned(st: GroupState, plan: Plan) {
    forall f :: f in st.filters ==> f in plan.meta && !plan.meta[f].groupbyFlg
  }

  lemma {:induction false} PlannedFilters(ps: seq<Processed>, plan: Plan)
    requires forall k :: 0 <= k < |ps| ==> FiltersPlanned(ps[k].st, plan)
    ensures forall f :: f in FilterUnion(ps) ==> f in plan.meta && !plan.meta[f].groupbyFlg
  {
    if |ps| > 0 {
      PlannedFilters(ps[..|ps| - 1], plan);
      assert FiltersPlanned(ps[|ps| - 1].st, plan);
    }
  }

  /** The loop over groups collecting `all_filters`. */
  method CollectFilters(ps: seq<Processed>) returns (fl: set<string>)
    ensures fl == FilterUnion(ps)
  {
    fl := {};
    var i := 0;
    while i < |ps|
      invariant 0 <= i <= |ps|
      invariant fl == FilterUnion(ps[..i])
    {
      assert ps[..i + 1][..i] == ps[..i];
      fl := fl + NameSet(ps[i].st.filters);
      i := i + 1;
    }
    assert ps[..|ps|] == ps;
  }

  /** The loop over groups collecting `data_in_list`. */
  method CollectParts(gb: PyVal, ps: seq<Processed>) returns (parts: seq<Table>)
    requires Assemblable(gb, ps)
    ensures parts == Parts(gb, ps)
  {
    parts := [];
    var i := 0;
    while i < |ps|
      invariant 0 <= i <= |ps|
      invariant Assemblable(gb, ps[..i])
      invariant parts == Parts(gb, ps[..i])
    {
      PartsNext(gb, ps, i);
      var p := ps[i];
      if !IsEmpty(p.st.data) {
        var part := KeyedPart(gb, p);
        parts := parts + [part];
      }
      i := i + 1;
    }
    assert ps[..|ps|] == ps;
  }

  /** One more group: its part is added unless its rows are empty. */
  lemma PartsNext(gb: PyVal, ps: seq<Processed>, i: nat)
    requires Assemblable(gb, ps) && i < |ps|
    ensures Assemblable(gb, ps[..i]) && Assemblable(gb, ps[..i + 1])
    ensures Parts(gb, ps[..i + 1]) == Parts(gb, ps[..i]) +
      if IsEmpty(ps[i].st.data) then [] else [GroupPart(ps[i], GroupColumns(gb).value)]
  {
    assert ps[..i + 1][..i] == ps[..i];
  }

  /** The columns loop of one non-empty group: each group column set to the key, then all-missing columns dropped. */
  method KeyedPart(gb: PyVal, p: Processed) returns (part: Table)
    requires WellFormed(p.st.data) && KeyFits(gb, p.key)
    ensures part == GroupPart(p, GroupColumns(gb).value)
  {
    var cols := GroupColumns(gb).value;
    var key := p.key;
    assert key.KeyTuple? ==> |key.vs| == |cols|;
    var df := p.st.data;
    var j := 0;
    while j < |cols|
      invariant 0 <= j <= |cols|
      invariant WellFormed(df) && df.rows == p.st.data.rows
      invariant AttachFrom(p.st.data, cols, key, 0) == AttachFrom(df, cols, key, j)
    {
      AttachNext(df, cols, key, j);
      df := SetColumn(df, cols[j], Fill(df.rows, KeyValueAt(key, j)));
      j := j + 1;
    }
    part := DropAllMissingColumns(df);
  }

  lemma AttachNext(t: Table, cols: seq<string>, key: GroupKey, n: nat)
    requires WellFormed(t) && n < |cols| && (key.KeyTuple? ==> |key.vs| == |cols|)
    ensures AttachFrom(t, cols, key, n) == AttachFrom(SetColumn(t, cols[n], Fill(t.rows, KeyValueAt(key, n))), cols, key, n + 1)
  {
  }

  /** The loop over groups collecting `attrs_list`. */
  method CollectRecords(gb: PyVal, ps: seq<Processed>) returns (recs: seq<Dict<Value>>)
    requires Assemblable(gb, ps) && forall k :: 0 <= k < |ps| ==> Dicts.Valid(ps[k].st.agg)
    ensures recs == Records(gb, ps)
  {
    recs := [];
    var i := 0;
    while i < |ps|
      invariant 0 <= i <= |ps|
      invariant recs == Records(gb, ps)[..i]
    {
      var row := GroupRecord(gb, ps[i]);
      PrefixNext(Records(gb, ps), i);
      recs := recs + [row];
      i := i + 1;
    }
  }

  /** `row_dict` of one group: its key by group column, then updated with its `agg_results`. */
  method GroupRecord(gb: PyVal, p: Processed) returns (row: Dict<Value>)
    requires KeyFits(gb, p.key) && Dicts.Valid(p.st.agg)
    ensures row == RecordOf(gb, p)
  {
    row := KeyRecord(gb, p.key);
    row := Update(row, p.st.agg);
  }

  /**
   * `process_all_groups`: without grouping, enrichment; otherwise every
   * group is processed and the filters table, the attributes table and
   * `exec_fltrs` are assembled from the results.
   */
  method ProcessAllGroups(gb: PyVal, data: Table, groups: seq<Group>, plan: Plan, ev: Eval) returns (r: Result<Outcome>)
    requires WellFormed(data)
    requires forall k :: 0 <= k < |groups| ==> WellFormed(groups[k].rows)
    requires !NoGrouping(gb) ==> GroupColumns(gb).Some? && forall k :: 0 <= k < |groups| ==> KeyFits(gb, groups[k].key)
    ensures NoGrouping(gb) ==> var spec := EnrichFrom(Init(data), plan.execSeq, plan, ev);
      && (r.Ok? <==> spec.Ok?)
      && (r.Err? ==> r.error == spec.error)
      && (r.Ok? ==> r.value == Outcome(spec.value.data, EmptyTable(), NameSet(spec.value.filters)))
    ensures !NoGrouping(gb) ==> r == AllGroupsSpec(gb, data, groups, plan, ev)
    ensures r.Ok? ==> forall f :: f in r.value.execFltrs ==> f in plan.meta && !plan.meta[f].groupbyFlg
  {
    if NoGrouping(gb) {
      var x := ProcessNoGrouping(data, plan, ev);
      if x.Err? {
        return Err(x.error);
      }
      return Ok(x.value.0);
    }
    var missing := FirstAbsent(GroupColumns(gb).value, data.columns);
    if missing.Some? {
      return Err(KeyError(missing.value));
    }
    var run := ProcessEachGroup(groups, plan, ev);
    if run.Err? {
      return Err(run.error);
    }
    var ps := run.value;
    FilterUnionPlanned(groups, ps, plan, ev);
    assert Assemblable(gb, ps);
    var out := AssembleOutcome(gb, ps);
    r := Ok(out);
  }

  /** The loop of `process_all_groups` over the groups, stopping at the first that raises. */
  method ProcessEachGroup(groups: seq<Group>, plan: Plan, ev: Eval) returns (r: Result<seq<Processed>>)
    requires forall k :: 0 <= k < |groups| ==> WellFormed(groups[k].rows)
    ensures r == RunGroups(groups, plan, ev)
  {
    var ps: seq<Processed> := [];
    var i := 0;
    while i < |groups|
      invariant 0 <= i <= |groups|
      invariant RunGroups(groups[..i], plan, ev) == Ok(ps)
    {
      var x := ProcessGroup(groups[i].rows, plan, ev);
      RunGroupsNext(groups, i, plan, ev, ps);
      if x.Err? {
        RunGroupsPrefixErr(groups, i + 1, plan, ev);
        return Err(x.error);
      }
      ps := ps + [Processed(groups[i].key, x.value)];
      i := i + 1;
    }
    assert groups[..|groups|] == groups;
    return Ok(ps);
  }

  /** The three collecting loops of `process_all_groups` and the two tables built from them. */
  method AssembleOutcome(gb: PyVal, ps: seq<Processed>) returns (out: Outcome)
    requires Assemblable(gb, ps) && forall k :: 0 <= k < |ps| ==> Dicts.Valid(ps[k].st.agg)
    ensures out == Assemble(gb, ps)
  {
    var fl := CollectFilters(ps);
    var parts := CollectParts(gb, ps);
    var combined := if |parts| == 0 then EmptyTable() else ConcatAll(parts);
    var filters := if IsEmpty(combined) then EmptyTable() else combined;
    var recs := CollectRecords(gb, ps);
    var attrs := if |recs| == 0 then EmptyTable() else FromRecords(recs);
    out := Outcome(filters, attrs, fl);
  }
}
